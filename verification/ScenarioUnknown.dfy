/** Keys that a directive does not know: refused everywhere but on two lines, which pass them over. */
module ScenarioUnknown {
  import opened Bytes
  import opened Records
  import opened Model
  import opened ScenarioText
  import opened Scenario
  import opened ScenarioWriter
  import opened ScenarioArgs
  import opened ScenarioLines
  import opened ScenarioTheorems

  // ---- every line -----------------------------------------------------------------------------------------------------

  /** The keys a directive reads. */
  function KeysOf(line: Directive): seq<string> {
    match line
    case VersionLine => []
    case FlowLine => NAME_KEYS
    case CandidatesetLine => NAME_KEYS
    case PathLine => PATH_KEYS
    case CapacityLine => NAME_KEYS
    case EntryLine => ENTRY_KEYS
    case QosLine => QOS_KEYS
    case EvidenceLine => NAME_KEYS
    case UtilLine => UTIL_KEYS
    case PolicyLine => POLICY_KEYS
    case IncumbentLine => INCUMBENT_KEYS
    case OccupiedLine => OCCUPIED_KEYS
    case ExpectedLine => EXPECTED_KEYS
    case ProvenanceLine => PROVENANCE_KEYS
    case AttemptLine => ATTEMPT_KEYS
  }

  /** These arguments have a key besides these. */
  predicate Extra(a: Args, ks: seq<string>) {
    exists k <- a :: k !in ks
  }

  lemma NeverFinishes(a: Args, ks: seq<string>)
    requires Extra(a, ks)
    ensures Finish(a, ks).Err?
  {
  }

  lemma NamesRefused(d: Draft, a: Args)
    requires Extra(a, NAME_KEYS)
    ensures ReadCapacity(d, a).Err? && ReadEvidence(d, a).Err?
  {
    hide Number, Finish, Extra;
    NeverFinishes(a, NAME_KEYS);
  }

  lemma PathRefused(d: Draft, a: Args, l: Limits)
    requires Extra(a, PATH_KEYS)
    ensures ReadPath(d, a, l).Err?
  {
    hide Number, NumberOr0, Number32Or0, NamedOr, ListOr, Finish, Extra, Narrow16;
    NeverFinishes(a, PATH_KEYS);
  }

  lemma EntryRefused(d: Draft, a: Args, l: Limits)
    requires Extra(a, ENTRY_KEYS)
    ensures ReadEntry(d, a, l).Err?
  {
    hide Number, Finish, Extra;
    NeverFinishes(a, ENTRY_KEYS);
  }

  lemma QosRefused(d: Draft, a: Args)
    requires Extra(a, QOS_KEYS)
    ensures ReadQos(d, a).Err?
  {
    hide NameFrom, NumberOr0, Named, NamedOr, Finish, Extra;
    NeverFinishes(a, QOS_KEYS);
  }

  lemma UtilRefused(d: Draft, a: Args, l: Limits)
    requires Extra(a, UTIL_KEYS)
    ensures ReadUtil(d, a, l).Err?
  {
    hide Number, Number32, Finish, Extra;
    NeverFinishes(a, UTIL_KEYS);
  }

  lemma PolicyRefused(d: Draft, a: Args, l: Limits)
    requires Extra(a, POLICY_KEYS)
    ensures ReadPolicy(d, a, l).Err?
  {
    hide NameFrom, ListsFrom, TermsFrom, MovesFrom, PolicyOf, Finish, Extra;
    NeverFinishes(a, POLICY_KEYS);
  }

  lemma IncumbentRefused(d: Draft, a: Args)
    requires Extra(a, INCUMBENT_KEYS)
    ensures ReadIncumbent(d, a).Err?
  {
    hide NameFrom, Number, ListOr, Finish, Extra;
    NeverFinishes(a, INCUMBENT_KEYS);
  }

  lemma OccupiedRefused(d: Draft, a: Args, l: Limits)
    requires Extra(a, OCCUPIED_KEYS)
    ensures ReadOccupied(d, a, l).Err?
  {
    hide Need, ToList, Finish, Extra;
    NeverFinishes(a, OCCUPIED_KEYS);
  }

  lemma ExpectedRefused(d: Draft, a: Args)
    requires Extra(a, EXPECTED_KEYS)
    ensures ReadExpected(d, a).Err?
  {
    hide Number, NumberOr0, Finish, Extra;
    NeverFinishes(a, EXPECTED_KEYS);
  }

  lemma ProvenanceRefused(d: Draft, a: Args)
    requires Extra(a, PROVENANCE_KEYS)
    ensures ReadProvenance(d, a).Err?
  {
    hide Number, NumberOr0, Phrase, Finish, Extra;
    NeverFinishes(a, PROVENANCE_KEYS);
  }

  lemma AttemptRefused(d: Draft, a: Args)
    requires Extra(a, ATTEMPT_KEYS)
    ensures Scenario.ReadAttempt(d, a).Err?
  {
    hide Number, Finish, Extra;
    NeverFinishes(a, ATTEMPT_KEYS);
  }

  /** The directive does not look for keys it does not know. */
  predicate PassesOver(line: Directive) {
    line == FlowLine || line == CandidatesetLine
  }

  lemma SameNames(d: Draft, a: Args, b: Args)
    requires Look(a, "id") == Look(b, "id") && Look(a, "gen") == Look(b, "gen")
    ensures ReadFlow(d, a) == ReadFlow(d, b) && ReadCandidates(d, a) == ReadCandidates(d, b)
  {
  }

  lemma LooksPast(a: Args, k: string, v: string)
    requires k !in a && k !in NAME_KEYS
    ensures Look(a[k := v], "id") == Look(a, "id") && Look(a[k := v], "gen") == Look(a, "gen")
  {
    assert NAME_KEYS[0] == "id" && NAME_KEYS[1] == "gen";
  }

  lemma ExtraKey(a: Args, k: string, v: string, ks: seq<string>)
    requires k !in ks
    ensures Extra(a[k := v], ks)
  {
    assert k in a[k := v];
  }

  /**
   A key that a directive does not know makes no difference to the flow and candidateset directives, and is
   refused by every other.
   */
  lemma UnknownKey(d: Draft, line: Directive, a: Args, k: string, v: string, l: Limits)
    requires line != VersionLine && k !in a && k !in KeysOf(line)
    ensures if PassesOver(line) then Apply(d, line, a[k := v], l) == Apply(d, line, a, l) else Apply(d, line, a[k := v], l).Err?
  {
    hide ReadFlow, ReadCandidates, ReadPath, ReadCapacity, ReadEntry, ReadQos, ReadEvidence, ReadUtil, ReadPolicy, ReadIncumbent,
         ReadOccupied, ReadExpected, ReadProvenance, Scenario.ReadAttempt, Extra, Look;
    var b := a[k := v];
    ExtraKey(a, k, v, KeysOf(line));
    match line {
      case FlowLine => LooksPast(a, k, v); SameNames(d, b, a);
      case CandidatesetLine => LooksPast(a, k, v); SameNames(d, b, a);
      case PathLine => PathRefused(d, b, l);
      case CapacityLine => NamesRefused(d, b);
      case EntryLine => EntryRefused(d, b, l);
      case QosLine => QosRefused(d, b);
      case EvidenceLine => NamesRefused(d, b);
      case UtilLine => UtilRefused(d, b, l);
      case PolicyLine => PolicyRefused(d, b, l);
      case IncumbentLine => IncumbentRefused(d, b);
      case OccupiedLine => OccupiedRefused(d, b, l);
      case ExpectedLine => ExpectedRefused(d, b);
      case ProvenanceLine => ProvenanceRefused(d, b);
      case AttemptLine => AttemptRefused(d, b);
    }
  }

  // ---- a text with one --------------------------------------------------------------------------------------------------

  /** The items of a name, and one more. */
  function NameAnd(n: Name, k: string, v: string): seq<Item> { NameItems(n) + [Here(k, v)] }

  lemma NameAndOrderly(n: Name, k: string, v: string)
    requires Clean(k) && Clean(v) && k !in NAME_KEYS
    ensures Orderly(NameAnd(n, k, v))
  {
    hide Decimal, Clean;
    NameOrderly(n);
    assert NAME_KEYS[0] == "id" && NAME_KEYS[1] == "gen";
  }

  lemma FlowAndLeads(d: Draft, n: Name, k: string, v: string, l: Limits)
    requires FlowLine !in d.seen && Clean(k) && Clean(v) && k !in NAME_KEYS
    ensures Leads(d, [LineOf(FlowLine, NameAnd(n, k, v))], Put(d, FlowLine, d.request.(flow := n)), l)
  {
    hide Clean, Orderly, NameItems, NameFrom, LineOf, ReadWords, Fold, WordsClean, Decimal;
    var items := NameAnd(n, k, v);
    NameAndOrderly(n, k, v);
    LineClean(FlowLine, items);
    var a := WordsBack(d, FlowLine, items, l);
    assert Says(a, NameItems(n)) by { SaysFirst(a, NameItems(n), [Here(k, v)]); }
    NameBackFrom(a, n);
    OneLeads(d, LineOf(FlowLine, items), Put(d, FlowLine, d.request.(flow := n)), l);
  }

  lemma SaysFirst(a: Args, x: seq<Item>, y: seq<Item>)
    requires Says(a, x + y)
    ensures Says(a, x)
  {
    hide Look;
    assert forall i :: 0 <= i < |x| ==> (x + y)[i] == x[i];
  }

  /** The version and the flow of a request, and the same with another key and value on the flow line. */
  function Head(r: Request): seq<seq<string>> {
    [["version", Decimal(FORMAT_VERSION)]] + [LineOf(FlowLine, NameItems(r.flow))]
  }

  function HeadAnd(r: Request, k: string, v: string): seq<seq<string>> {
    [["version", Decimal(FORMAT_VERSION)]] + [LineOf(FlowLine, NameAnd(r.flow, k, v))]
  }

  /** The lines of a request after its flow. */
  function Rest(r: Request): seq<seq<string>> {
    [LineOf(CandidatesetLine, NameItems(r.candidates))] + PathLines(r.paths) + [LineOf(CapacityLine, NameItems(r.capacity))]
    + EntryLines(r.capacities) + MiddleLines(r) + LateLines(r) + LastLines(r)
  }

  lemma LinesHead(r: Request)
    ensures LinesOf(r) == Head(r) + Rest(r)
  {
    hide LineOf, PathLines, EntryLines, MiddleLines, LateLines, LastLines, NameItems, Decimal, LinesOf;
    LinesParts(r);
  }

  /** A request written with another key and value on its flow line. */
  function LinesAnd(r: Request, k: string, v: string): seq<seq<string>> { HeadAnd(r, k, v) + Rest(r) }

  lemma AndLeads(r: Request, k: string, v: string, l: Limits) returns (d: Draft)
    requires Writable(r, l) && Clean(k) && Clean(v) && k !in NAME_KEYS
    ensures Leads(START, LinesAnd(r, k, v), d, l) && Completed(d) == Ok(r)
  {
    hide Leads, Rest, LinesOf, Writable, Clean, LineOf, NameItems, NameAnd, Decimal, Completed;
    var version := [["version", Decimal(FORMAT_VERSION)]];
    var d1 := Put(START, FlowLine, START.request.(flow := r.flow));
    VersionLeads(START, l);
    NamedLeads(START, FlowLine, r.flow, l);
    LeadsOn(START, version, START, [LineOf(FlowLine, NameItems(r.flow))], d1, l);
    FlowAndLeads(START, r.flow, k, v, l);
    LeadsOn(START, version, START, [LineOf(FlowLine, NameAnd(r.flow, k, v))], d1, l);
    d := RequestLeads(r, l);
    LinesHead(r);
    assert Leads(d1, Rest(r), d, l) by { LeadsRest(START, Head(r), d1, Rest(r), d, l); }
    LeadsOn(START, HeadAnd(r, k, v), d1, Rest(r), d, l);
  }

  lemma LeadsRest(d: Draft, x: seq<seq<string>>, d1: Draft, y: seq<seq<string>>, d2: Draft, l: Limits)
    requires Leads(d, x, d1, l) && Leads(d, x + y, d2, l)
    ensures Leads(d1, y, d2, l)
  {
    hide Fold, WordsClean;
    FoldJoin(d, x, y, l);
    assert forall line <- y :: line in x + y;
  }

  /**
   The text of a request with a key on its flow line that the directive does not know is read as that request,
   unless it is refused for its length.
   */
  lemma UnknownKeyAccepted(r: Request, k: string, v: string, l: Limits)
    requires Writable(r, l) && Clean(k) && Clean(v) && k !in NAME_KEYS
    ensures var lines := LinesAnd(r, k, v);
            Parse(Render(lines), l) ==
            if LinesShort(lines) && |Render(lines)| <= MAX_DOCUMENT then Ok(r) else Err(OVERSIZE_REQUEST)
  {
    hide LinesAnd, Render, Writable, Completed, ReadLines, Split, LinesShort, Fold, Clean;
    var d := AndLeads(r, k, v, l);
    RenderSplit(LinesAnd(r, k, v));
    TextsRead(START, LinesAnd(r, k, v), d, l);
  }
}
