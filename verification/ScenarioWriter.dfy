/** The canonical rendering of a request as a scenario. */
module ScenarioWriter {
  import opened Bytes
  import opened Records
  import opened Model
  import opened ScenarioText
  import opened Scenario
  import opened Validation

  // ---- values -----------------------------------------------------------------------------------------------

  function NumberText(n: u64): string { Decimal(n) }

  function SignedText(n: i64): string { if n < 0 then "-" + Decimal(-(n as int)) else Decimal(n) }

  function FlagText(b: bool): string { if b then "true" else "false" }

  function RefText(r: Ref): string { Decimal(r.id) + [':'] + Decimal(r.generation) }

  function ObjectiveText(o: Objective): string { NameIn(OBJECTIVES, o.kind) + [':'] + NameIn(DIRECTIONS, o.direction) }

  function TierText(t: u8): string { NameIn(TIERS, t) }

  function Each<T>(xs: seq<T>, write: T -> string): (parts: seq<string>)
    ensures |parts| == |xs| && forall i :: 0 <= i < |xs| ==> parts[i] == write(xs[i])
  {
    seq(|xs|, i requires 0 <= i < |xs| => write(xs[i]))
  }

  function ListText<T>(xs: seq<T>, write: T -> string): string {
    if xs == [] then "" else Join(Each(xs, write), ',')
  }

  function PhraseText(b: seq<byte>): string { if b == [] then "-" else TextOf(b) }

  // ---- lines ------------------------------------------------------------------------------------------------

  /** A key and its value, if it is written at all. */
  datatype Item = Item(key: string, value: Option<string>)

  function Here(k: string, v: string): Item { Item(k, Some(v)) }

  function Num(k: string, n: u64): Item { Here(k, Decimal(n)) }

  function When(present: bool, k: string, v: string): Item { Item(k, if present then Some(v) else None) }

  function ListItem<T>(k: string, xs: seq<T>, write: T -> string): Item { When(xs != [], k, ListText(xs, write)) }

  function OptionalItem(k: string, n: Option<u64>): Item {
    match n case None => Item(k, None) case Some(v) => Num(k, v)
  }

  function Flat(items: seq<Item>): seq<string> {
    if items == [] then []
    else (match items[0].value case None => [] case Some(v) => [items[0].key, v]) + Flat(items[1..])
  }

  function LineOf(d: Directive, items: seq<Item>): seq<string> { [Title(d)] + Flat(items) }

  function NameItems(n: Name): seq<Item> { [Num("id", n.id), Num("gen", n.generation)] }

  function PathItems(p: Path): seq<Item> {
    [Num("id", p.id), Num("auth", p.authority), Here("tier", NameIn(TIERS, p.tier)), Num("locality", p.locality),
     Here("scope", NameIn(SCOPES, p.scope)), Num("domain", p.domain), Num("cost", p.cost), Num("latency", p.latency),
     Num("hops", p.hops), ListItem("labels", p.labels, NumberText), ListItem("reservations", p.reservations, RefText)]
  }

  function EntryItems(c: Capacity): seq<Item> {
    [Num("path", c.path), Num("total", c.total), Num("residual", c.residual)]
  }

  function QosItems(q: Qos): seq<Item> {
    [Num("id", q.id), Num("gen", q.generation), Here("class", NameIn(CLASSES, q.serviceClass)),
     Here("priority", NameIn(PRIORITIES, q.priority)), Num("required", q.required), Num("maxlatency", q.maxLatency)]
  }

  function UtilItems(e: Evidence): seq<Item> { [Num("path", e.path), Num("ppb", e.utilization)] }

  function ListsItems(p: Policy): seq<Item> {
    [Here("objectives", ListText(p.rules.objectives, ObjectiveText)), ListItem("tiers", p.allowedTiers, TierText),
     ListItem("require-labels", p.requiredLabels, NumberText), ListItem("forbid-labels", p.forbiddenLabels, NumberText),
     OptionalItem("locality-required", p.rules.requiredLocality), OptionalItem("locality-preferred", p.rules.preferredLocality),
     ListItem("locality-forbidden", p.forbiddenLocalities, NumberText), OptionalItem("domain-required", p.rules.requiredDomain),
     ListItem("domain-forbidden", p.forbiddenDomains, NumberText)]
  }

  function TermsItems(p: Policy): seq<Item> {
    var r := p.rules;
    [Here("domain-avoid-occupied", FlagText(r.avoidOccupied)), Num("domain-min-distinct", r.minDistinct),
     Here("affinity-required", FlagText(r.affinityRequired)), ListItem("affinity-refs", p.affinity, RefText),
     Num("admission-headroom", r.minHeadroom), Here("admission-action", NameIn(GATES, r.onBelow)),
     Here("service-degraded", FlagText(r.allowDegraded)), Num("service-relaxation", r.relaxation)]
  }

  function MovesItems(p: Policy): seq<Item> {
    var r := p.rules;
    [Here("churn-action", NameIn(CHURNS, r.onMove)), Here("churn-prefer-incumbent", FlagText(r.preferIncumbent)),
     Num("churn-threshold", r.moveThreshold), Num("churn-threshold-objective", r.thresholdIndex),
     Here("evidence-missing", NameIn(MODES, r.onMissing)), Here("evidence-stale", NameIn(MODES, r.onStale)),
     Num("revalidate", r.revalidateAfter)]
  }

  function PolicyItems(p: Policy): seq<Item> {
    NameItems(Name(p.id, p.generation)) + ListsItems(p) + TermsItems(p) + MovesItems(p)
  }

  function IncumbentItems(i: Incumbent): seq<Item> {
    [Num("id", i.id), Num("gen", i.generation), Num("path", i.path), Num("pathauth", i.pathAuthority),
     Num("cset", i.candidates), Num("cap", i.capacity), Num("policy", i.policy), Num("qos", i.qos), Num("epoch", i.epoch),
     When(RefValid(i.reservation), "reservation", RefText(i.reservation))]
  }

  function ExpectedItems(e: Expected): seq<Item> {
    [Num("pathauth", e.path), Num("cset", e.candidates), Num("cap", e.capacity), Num("policy", e.policy), Num("qos", e.qos),
     Num("epoch", e.epoch), Num("evidence", e.evidence)]
  }

  function ProvenanceItems(p: Provenance): seq<Item> {
    [Here("producer", PhraseText(p.producer)), Here("version", PhraseText(p.version)), Num("sequence", p.sequence),
     Here("observed", SignedText(p.observed))]
  }

  function PathLines(ps: seq<Path>): seq<seq<string>> {
    if ps == [] then [] else [LineOf(PathLine, PathItems(ps[0]))] + PathLines(ps[1..])
  }

  function EntryLines(cs: seq<Capacity>): seq<seq<string>> {
    if cs == [] then [] else [LineOf(EntryLine, EntryItems(cs[0]))] + EntryLines(cs[1..])
  }

  function UtilLines(es: seq<Evidence>): seq<seq<string>> {
    if es == [] then [] else [LineOf(UtilLine, UtilItems(es[0]))] + UtilLines(es[1..])
  }

  function IncumbentLines(i: Option<Incumbent>): seq<seq<string>> {
    match i case None => [] case Some(v) => [LineOf(IncumbentLine, IncumbentItems(v))]
  }

  function OccupiedLines(domains: seq<u64>): seq<seq<string>> {
    if domains == [] then [] else [LineOf(OccupiedLine, [Here("domains", ListText(domains, NumberText))])]
  }

  /** The words of every line. */
  function LinesOf(r: Request): seq<seq<string>> {
    [["version", Decimal(FORMAT_VERSION)], LineOf(FlowLine, NameItems(r.flow)), LineOf(CandidatesetLine, NameItems(r.candidates))]
    + PathLines(r.paths) + [LineOf(CapacityLine, NameItems(r.capacity))] + EntryLines(r.capacities)
    + [LineOf(QosLine, QosItems(r.qos)), LineOf(EvidenceLine, NameItems(r.evidence))] + UtilLines(r.evidences)
    + [LineOf(PolicyLine, PolicyItems(r.policy))] + IncumbentLines(r.incumbent) + OccupiedLines(r.occupied)
    + [LineOf(ExpectedLine, ExpectedItems(r.expected)), LineOf(ProvenanceLine, ProvenanceItems(r.provenance)),
       LineOf(AttemptLine, [Num("id", r.attempt)])]
  }

  function Render(lines: seq<seq<string>>): string {
    if lines == [] then "" else Spaced(lines[0]) + "\n" + Render(lines[1..])
  }

  function Write(r: Request): string { Render(LinesOf(r)) }
}
