/** The scenario grammar: requests as lines of directives with key and value pairs. */
module Scenario {
  import opened Bytes
  import opened Records
  import opened Model
  import opened ScenarioText

  const MALFORMED_REQUEST: StatusCode := 10
  const UNREPRESENTABLE_VALUE: StatusCode := 17
  const UNSUPPORTED: StatusCode := 155

  const MAX_DOCUMENT := 0x400_0000
  const MAX_LINE := 0x1_0000
  const MAX_KEYS := 64

  // ---- the vocabulary ----------------------------------------------------------------------------------

  datatype Directive =
    | VersionLine | FlowLine | CandidatesetLine | PathLine | CapacityLine | EntryLine | QosLine | EvidenceLine
    | UtilLine | PolicyLine | IncumbentLine | OccupiedLine | ExpectedLine | ProvenanceLine | AttemptLine

  function Title(k: Directive): string {
    match k
    case VersionLine => "version" case FlowLine => "flow" case CandidatesetLine => "candidateset"
    case PathLine => "path" case CapacityLine => "capacity" case EntryLine => "entry" case QosLine => "qos"
    case EvidenceLine => "evidence" case UtilLine => "util" case PolicyLine => "policy"
    case IncumbentLine => "incumbent" case OccupiedLine => "occupied" case ExpectedLine => "expected"
    case ProvenanceLine => "provenance" case AttemptLine => "attempt"
  }

  /** The directive a line starts with. */
  function Recognize(w: string): (r: Option<Directive>)
    ensures r.Some? ==> Title(r.value) == w
    ensures r.None? ==> forall d :: Title(d) != w
  {
    if w == "version" then Some(VersionLine)
    else if w == "flow" then Some(FlowLine)
    else if w == "candidateset" then Some(CandidatesetLine)
    else if w == "path" then Some(PathLine)
    else if w == "capacity" then Some(CapacityLine)
    else if w == "entry" then Some(EntryLine)
    else if w == "qos" then Some(QosLine)
    else if w == "evidence" then Some(EvidenceLine)
    else if w == "util" then Some(UtilLine)
    else if w == "policy" then Some(PolicyLine)
    else if w == "incumbent" then Some(IncumbentLine)
    else if w == "occupied" then Some(OccupiedLine)
    else if w == "expected" then Some(ExpectedLine)
    else if w == "provenance" then Some(ProvenanceLine)
    else if w == "attempt" then Some(AttemptLine)
    else None
  }

  const CLASSES: seq<string> := ["best_effort", "controlled", "assured", "reserved"]
  const PRIORITIES: seq<string> := ["low", "normal", "high", "critical"]
  const TIERS: seq<string> := ["premium", "standard", "economy"]
  const SCOPES: seq<string> := ["node", "rack", "zone", "region", "global"]
  const OBJECTIVES: seq<string> := [
    "cost", "latency", "residual_capacity", "hop_count", "congestion", "tier", "locality_affinity", "reservation_affinity",
    "incumbent_stability"]
  const DIRECTIONS: seq<string> := ["min", "max"]
  const MODES: seq<string> := ["rank_worst", "hard_exclude"]
  const GATES: seq<string> := ["place", "defer"]
  const CHURNS: seq<string> := ["allow_move", "defer"]

  function NameIn(table: seq<string>, e: nat): string {
    if e < |table| then table[e] else "unknown"
  }

  // ---- arguments -----------------------------------------------------------------------------------------

  /** The values of the keys on one line. */
  type Args = map<string, string>

  /** Pairs in order; a key given twice is refused. */
  function Pairs(tokens: seq<string>, a: Args): Result<Args>
    requires |tokens| % 2 == 0
    decreases |tokens|
  {
    if tokens == [] then Ok(a)
    else if tokens[0] in a then Err(MALFORMED_REQUEST)
    else Pairs(tokens[2..], a[tokens[0] := tokens[1]])
  }

  function ArgsOf(tokens: seq<string>): Result<Args> {
    if |tokens| % 2 != 0 then Err(MALFORMED_REQUEST)
    else if |tokens| / 2 > MAX_KEYS then Err(OVERSIZE_REQUEST)
    else Pairs(tokens, map[])
  }

  /** The loop that collects the pairs of a line. */
  method ParseArgs(tokens: seq<string>) returns (r: Result<Args>)
    ensures r == ArgsOf(tokens)
  {
    if |tokens| % 2 != 0 { return Err(MALFORMED_REQUEST); }
    if |tokens| / 2 > MAX_KEYS { return Err(OVERSIZE_REQUEST); }
    var args: Args := map[];
    var i := 0;
    assert tokens[0..] == tokens;
    while i + 1 < |tokens|
      invariant 0 <= i <= |tokens| && i % 2 == 0 && Pairs(tokens[i..], args) == Pairs(tokens, map[])
    {
      assert tokens[i..][2..] == tokens[i + 2..];
      if tokens[i] in args { return Err(MALFORMED_REQUEST); }
      args := args[tokens[i] := tokens[i + 1]];
      i := i + 2;
    }
    assert tokens[i..] == [];
    return Ok(args);
  }

  function Look(a: Args, k: string): Option<string> {
    if k in a then Some(a[k]) else None
  }

  /** The value of a key that must be there. */
  function Need(a: Args, k: string): Result<string> {
    match Look(a, k) case None => Err(MISSING_FIELD) case Some(v) => Ok(v)
  }

  function ToNumber(v: string): Result<u64> {
    match ParseU64(v) case None => Err(INVALID_FIELD_VALUE) case Some(n) => Ok(n)
  }

  /** A number that must be there; one that need not, with zero for its default. */
  function Number(a: Args, k: string): Result<u64> {
    var v :- Need(a, k);
    ToNumber(v)
  }

  function NumberOr0(a: Args, k: string): Result<u64> {
    match Look(a, k) case None => Ok(0) case Some(v) => ToNumber(v)
  }

  function Narrow32(n: u64): Result<u32> { if n < 0x1_0000_0000 then Ok(n) else Err(UNREPRESENTABLE_VALUE) }
  function Narrow16(n: u32): Result<u16> { if n < 0x1_0000 then Ok(n) else Err(UNREPRESENTABLE_VALUE) }
  function Narrow8(n: u32): Result<u8> { if n < 0x100 then Ok(n) else Err(UNREPRESENTABLE_VALUE) }

  function Number32(a: Args, k: string): Result<u32> {
    var n :- Number(a, k);
    Narrow32(n)
  }

  function Number32Or0(a: Args, k: string): Result<u32> {
    var n :- NumberOr0(a, k);
    Narrow32(n)
  }

  function Flag(a: Args, k: string): Result<bool> {
    match Look(a, k)
    case None => Ok(false)
    case Some(v) => if v == "true" then Ok(true) else if v == "false" then Ok(false) else Err(INVALID_FIELD_VALUE)
  }

  function ToNamed(table: seq<string>, v: string): Result<u8>
    requires |table| <= 256
  {
    match PlaceIn(table, v) case None => Err(INVALID_FIELD_VALUE) case Some(i) => Ok(i)
  }

  function Named(a: Args, k: string, table: seq<string>): Result<u8>
    requires |table| <= 256
  {
    var v :- Need(a, k);
    ToNamed(table, v)
  }

  function NamedOr(a: Args, k: string, table: seq<string>, default: u8): Result<u8>
    requires |table| <= 256
  {
    match Look(a, k) case None => Ok(default) case Some(v) => ToNamed(table, v)
  }

  function ToParts(v: string, limit: nat): Result<seq<string>> {
    match SplitBounded(v, limit) case None => Err(OVERSIZE_REQUEST) case Some(parts) => Ok(parts)
  }

  /** Each part read in turn; the first that cannot be read decides. */
  function ReadAll<T>(parts: seq<string>, read: string -> Result<T>): Result<seq<T>>
    decreases |parts|
  {
    if parts == [] then Ok([])
    else
      var x :- read(parts[0]);
      var rest :- ReadAll(parts[1..], read);
      Ok([x] + rest)
  }

  function ToList<T>(v: string, limit: nat, read: string -> Result<T>): Result<seq<T>> {
    var parts :- ToParts(v, limit);
    ReadAll(parts, read)
  }

  function ToRef(part: string): Result<Ref> {
    var i := IndexOf(part, ':');
    if i == |part| then Err(INVALID_FIELD_VALUE)
    else
      var id :- ToNumber(part[..i]);
      var generation :- ToNumber(part[i + 1..]);
      Ok(Ref(id, generation))
  }

  function ToObjective(part: string): Result<Objective> {
    var i := IndexOf(part, ':');
    if i == |part| then Err(INVALID_FIELD_VALUE)
    else
      var kind :- ToNamed(OBJECTIVES, part[..i]);
      var direction :- ToNamed(DIRECTIONS, part[i + 1..]);
      Ok(Objective(kind, direction))
  }

  function ToTier(part: string): Result<u8> { ToNamed(TIERS, part) }

  function ListOr<T>(a: Args, k: string, limit: nat, read: string -> Result<T>): Result<seq<T>> {
    match Look(a, k) case None => Ok([]) case Some(v) => ToList(v, limit, read)
  }

  /** No key but these. */
  function Finish(a: Args, ks: seq<string>): Result<()> {
    if forall w <- a :: w in ks then Ok(()) else Err(MALFORMED_REQUEST)
  }

  // ---- directives ------------------------------------------------------------------------------------------

  /** The request so far, and the directives that may be given once and have been. */
  datatype Draft = Draft(request: Request, seen: set<Directive>)

  function Once(d: Draft, line: Directive): Result<Draft> {
    if line in d.seen then Err(MALFORMED_REQUEST) else Ok(d.(seen := d.seen + {line}))
  }

  function After(d: Draft, line: Directive): Result<()> {
    if line in d.seen then Ok(()) else Err(MISSING_FIELD)
  }

  function NameFrom(a: Args): Result<Name> {
    var id :- Number(a, "id");
    var generation :- Number(a, "gen");
    Ok(Name(id, generation))
  }

  const NAME_KEYS: seq<string> := ["id", "gen"]

  /** The flow and candidateset directives do not look for other keys. */
  function ReadFlow(d: Draft, a: Args): Result<Draft> {
    var d' :- Once(d, FlowLine);
    var n :- NameFrom(a);
    Ok(d'.(request := d'.request.(flow := n)))
  }

  function ReadCandidates(d: Draft, a: Args): Result<Draft> {
    var d' :- Once(d, CandidatesetLine);
    var n :- NameFrom(a);
    Ok(d'.(request := d'.request.(candidates := n)))
  }

  const PATH_KEYS: seq<string> := ["id", "auth", "tier", "locality", "scope", "domain", "cost", "latency", "hops",
    "labels", "reservations"]

  function PathFrom(a: Args, l: Limits): Result<Path> {
    var id :- Number(a, "id");
    var authority :- Number(a, "auth");
    var tier :- NamedOr(a, "tier", TIERS, 1);
    var locality :- NumberOr0(a, "locality");
    var scope :- NamedOr(a, "scope", SCOPES, 0);
    var domain :- NumberOr0(a, "domain");
    var cost :- NumberOr0(a, "cost");
    var latency :- NumberOr0(a, "latency");
    var hops32 :- Number32Or0(a, "hops");
    var hops :- Narrow16(hops32);
    var labels :- ListOr(a, "labels", l.maxLabels, ToNumber);
    var reservations :- ListOr(a, "reservations", l.maxReservations, ToRef);
    var _ :- Finish(a, PATH_KEYS);
    Ok(Path(id, authority, tier, locality, scope, domain, cost, latency, hops, labels, reservations))
  }

  function ReadPath(d: Draft, a: Args, l: Limits): Result<Draft> {
    var _ :- After(d, CandidatesetLine);
    if |d.request.paths| >= l.maxPaths then Err(OVERSIZE_REQUEST)
    else
      var p :- PathFrom(a, l);
      Ok(d.(request := d.request.(paths := d.request.paths + [p])))
  }

  function ReadCapacity(d: Draft, a: Args): Result<Draft> {
    var d' :- Once(d, CapacityLine);
    var n :- NameFrom(a);
    var _ :- Finish(a, NAME_KEYS);
    Ok(d'.(request := d'.request.(capacity := n)))
  }

  const ENTRY_KEYS: seq<string> := ["path", "total", "residual"]

  function EntryFrom(a: Args): Result<Capacity> {
    var path :- Number(a, "path");
    var total :- Number(a, "total");
    var residual :- Number(a, "residual");
    var _ :- Finish(a, ENTRY_KEYS);
    Ok(Capacity(path, total, residual))
  }

  function ReadEntry(d: Draft, a: Args, l: Limits): Result<Draft> {
    var _ :- After(d, CapacityLine);
    if |d.request.capacities| >= l.maxCapacities then Err(OVERSIZE_REQUEST)
    else
      var c :- EntryFrom(a);
      Ok(d.(request := d.request.(capacities := d.request.capacities + [c])))
  }

  const QOS_KEYS: seq<string> := ["id", "gen", "class", "priority", "required", "maxlatency"]

  function QosFrom(a: Args): Result<Qos> {
    var n :- NameFrom(a);
    var serviceClass :- Named(a, "class", CLASSES);
    var priority :- NamedOr(a, "priority", PRIORITIES, 1);
    var required :- NumberOr0(a, "required");
    var maxLatency :- NumberOr0(a, "maxlatency");
    var _ :- Finish(a, QOS_KEYS);
    Ok(Qos(n.id, n.generation, serviceClass, priority, required, maxLatency))
  }

  function ReadQos(d: Draft, a: Args): Result<Draft> {
    var d' :- Once(d, QosLine);
    var q :- QosFrom(a);
    Ok(d'.(request := d'.request.(qos := q)))
  }

  function ReadEvidence(d: Draft, a: Args): Result<Draft> {
    var d' :- Once(d, EvidenceLine);
    var n :- NameFrom(a);
    var _ :- Finish(a, NAME_KEYS);
    Ok(d'.(request := d'.request.(evidence := n)))
  }

  const UTIL_KEYS: seq<string> := ["path", "ppb"]

  function UtilFrom(a: Args): Result<Evidence> {
    var path :- Number(a, "path");
    var utilization :- Number32(a, "ppb");
    var _ :- Finish(a, UTIL_KEYS);
    Ok(Evidence(path, utilization))
  }

  /** Utilizations need no evidence directive before them. */
  function ReadUtil(d: Draft, a: Args, l: Limits): Result<Draft> {
    if |d.request.evidences| >= l.maxEvidences then Err(OVERSIZE_REQUEST)
    else
      var e :- UtilFrom(a);
      Ok(d.(request := d.request.(evidences := d.request.evidences + [e])))
  }

  function OptionalOf(n: u64): Option<u64> { if n == 0 then None else Some(n) }

  const LISTS_KEYS: seq<string> := ["objectives", "tiers", "require-labels", "forbid-labels", "locality-required",
    "locality-preferred", "locality-forbidden", "domain-required", "domain-forbidden"]
  const TERMS_KEYS: seq<string> := ["domain-avoid-occupied", "domain-min-distinct", "affinity-required",
    "affinity-refs", "admission-headroom", "admission-action", "service-degraded", "service-relaxation"]
  const MOVES_KEYS: seq<string> := ["churn-action", "churn-prefer-incumbent", "churn-threshold",
    "churn-threshold-objective", "evidence-missing", "evidence-stale", "revalidate"]
  const POLICY_KEYS: seq<string> := NAME_KEYS + LISTS_KEYS + TERMS_KEYS + MOVES_KEYS

  /** What a policy says about labels, localities and domains. */
  datatype Lists = Lists(
    objectives: seq<Objective>, tiers: seq<u8>, required: seq<u64>, forbidden: seq<u64>, requiredLocality: Option<u64>,
    preferredLocality: Option<u64>, localities: seq<u64>, requiredDomain: Option<u64>, domains: seq<u64>)

  function ListsFrom(a: Args, l: Limits): Result<Lists> {
    var text :- Need(a, "objectives");
    var objectives :- ToList(text, l.maxObjectives, ToObjective);
    var tiers :- ListOr(a, "tiers", 3, ToTier);
    var required :- ListOr(a, "require-labels", l.maxPolicyLists, ToNumber);
    var forbidden :- ListOr(a, "forbid-labels", l.maxPolicyLists, ToNumber);
    var requiredLocality :- NumberOr0(a, "locality-required");
    var preferredLocality :- NumberOr0(a, "locality-preferred");
    var localities :- ListOr(a, "locality-forbidden", l.maxPolicyLists, ToNumber);
    var requiredDomain :- NumberOr0(a, "domain-required");
    var domains :- ListOr(a, "domain-forbidden", l.maxPolicyLists, ToNumber);
    Ok(Lists(objectives, tiers, required, forbidden, OptionalOf(requiredLocality), OptionalOf(preferredLocality), localities,
             OptionalOf(requiredDomain), domains))
  }

  /** What it says about domains, reservations and admission. */
  datatype Terms = Terms(
    avoidOccupied: bool, minDistinct: u32, affinityRequired: bool, affinity: seq<Ref>, minHeadroom: u64, onBelow: u8,
    allowDegraded: bool, relaxation: u8)

  function TermsFrom(a: Args, l: Limits): Result<Terms> {
    var avoidOccupied :- Flag(a, "domain-avoid-occupied");
    var minDistinct :- Number32Or0(a, "domain-min-distinct");
    var affinityRequired :- Flag(a, "affinity-required");
    var affinity :- ListOr(a, "affinity-refs", l.maxAffinity, ToRef);
    var minHeadroom :- NumberOr0(a, "admission-headroom");
    var onBelow :- NamedOr(a, "admission-action", GATES, 0);
    var allowDegraded :- Flag(a, "service-degraded");
    var steps :- Number32Or0(a, "service-relaxation");
    var relaxation :- Narrow8(steps);
    Ok(Terms(avoidOccupied, minDistinct, affinityRequired, affinity, minHeadroom, onBelow, allowDegraded, relaxation))
  }

  /** And about moves and evidence. */
  datatype Moves = Moves(
    onMove: u8, preferIncumbent: bool, moveThreshold: u64, thresholdIndex: u32, onMissing: u8, onStale: u8, revalidateAfter: u64)

  function MovesFrom(a: Args): Result<Moves> {
    var onMove :- NamedOr(a, "churn-action", CHURNS, 0);
    var preferIncumbent :- Flag(a, "churn-prefer-incumbent");
    var moveThreshold :- NumberOr0(a, "churn-threshold");
    var thresholdIndex :- Number32Or0(a, "churn-threshold-objective");
    var onMissing :- NamedOr(a, "evidence-missing", MODES, 1);
    var onStale :- NamedOr(a, "evidence-stale", MODES, 1);
    var revalidateAfter :- NumberOr0(a, "revalidate");
    Ok(Moves(onMove, preferIncumbent, moveThreshold, thresholdIndex, onMissing, onStale, revalidateAfter))
  }

  function PolicyOf(n: Name, x: Lists, t: Terms, m: Moves): Policy {
    Policy(n.id, n.generation,
           Rules(x.objectives, x.requiredLocality, x.preferredLocality, x.requiredDomain, t.avoidOccupied, t.minDistinct,
                 t.affinityRequired, t.minHeadroom, t.onBelow, t.allowDegraded, t.relaxation, m.onMove, m.preferIncumbent,
                 m.moveThreshold, m.thresholdIndex, m.onMissing, m.onStale, m.revalidateAfter),
           x.tiers, x.required, x.forbidden, x.localities, x.domains, t.affinity)
  }

  function PolicyFrom(a: Args, l: Limits): Result<Policy> {
    var n :- NameFrom(a);
    var x :- ListsFrom(a, l);
    var t :- TermsFrom(a, l);
    var m :- MovesFrom(a);
    var _ :- Finish(a, POLICY_KEYS);
    Ok(PolicyOf(n, x, t, m))
  }

  function ReadPolicy(d: Draft, a: Args, l: Limits): Result<Draft> {
    var d' :- Once(d, PolicyLine);
    var p :- PolicyFrom(a, l);
    Ok(d'.(request := d'.request.(policy := p)))
  }

  const INCUMBENT_KEYS: seq<string> := ["id", "gen", "path", "pathauth", "cset", "cap", "policy", "qos", "epoch",
    "reservation"]

  function IncumbentFrom(a: Args): Result<Incumbent> {
    var n :- NameFrom(a);
    var path :- Number(a, "path");
    var authority :- Number(a, "pathauth");
    var candidates :- Number(a, "cset");
    var capacity :- Number(a, "cap");
    var policy :- Number(a, "policy");
    var qos :- Number(a, "qos");
    var epoch :- Number(a, "epoch");
    var refs :- ListOr(a, "reservation", 1, ToRef);
    var _ :- Finish(a, INCUMBENT_KEYS);
    Ok(Incumbent(n.id, n.generation, path, authority, candidates, capacity, policy, qos, epoch,
                 if refs == [] then NO_REF else refs[0]))
  }

  function ReadIncumbent(d: Draft, a: Args): Result<Draft> {
    var d' :- Once(d, IncumbentLine);
    var i :- IncumbentFrom(a);
    Ok(d'.(request := d'.request.(incumbent := Some(i))))
  }

  const OCCUPIED_KEYS: seq<string> := ["domains"]

  function OccupiedFrom(a: Args, l: Limits): Result<seq<u64>> {
    var text :- Need(a, "domains");
    var domains :- ToList(text, l.maxOccupied, ToNumber);
    var _ :- Finish(a, OCCUPIED_KEYS);
    Ok(domains)
  }

  function ReadOccupied(d: Draft, a: Args, l: Limits): Result<Draft> {
    var d' :- Once(d, OccupiedLine);
    var domains :- OccupiedFrom(a, l);
    Ok(d'.(request := d'.request.(occupied := domains)))
  }

  const EXPECTED_KEYS: seq<string> := ["pathauth", "cset", "cap", "policy", "qos", "epoch", "evidence"]

  function ExpectedFrom(a: Args): Result<Expected> {
    var path :- Number(a, "pathauth");
    var candidates :- Number(a, "cset");
    var capacity :- Number(a, "cap");
    var policy :- Number(a, "policy");
    var qos :- Number(a, "qos");
    var epoch :- Number(a, "epoch");
    var evidence :- NumberOr0(a, "evidence");
    var _ :- Finish(a, EXPECTED_KEYS);
    Ok(Expected(path, candidates, capacity, policy, qos, epoch, evidence))
  }

  function ReadExpected(d: Draft, a: Args): Result<Draft> {
    var d' :- Once(d, ExpectedLine);
    var e :- ExpectedFrom(a);
    Ok(d'.(request := d'.request.(expected := e)))
  }

  function TextOf(b: seq<byte>): (s: string)
    ensures |s| == |b| && forall i :: 0 <= i < |b| ==> s[i] == b[i] as char
  {
    seq(|b|, i requires 0 <= i < |b| => b[i] as char)
  }

  /** The octets of a text. Documents hold nothing else; another character would count as a question mark. */
  function OctetsOf(s: string): (b: seq<byte>)
    ensures |b| == |s| && forall i :: 0 <= i < |s| ==> b[i] == if s[i] as int < 256 then s[i] as int else 63
  {
    seq(|s|, i requires 0 <= i < |s| => if s[i] as int < 256 then s[i] as int else 63)
  }

  function Phrase(a: Args, k: string): Result<seq<byte>> {
    var v :- Need(a, k);
    if |v| > MAX_PROVENANCE then Err(OVERSIZE_REQUEST) else Ok(OctetsOf(v))
  }

  const PROVENANCE_KEYS: seq<string> := ["producer", "version", "sequence", "observed"]

  function ProvenanceFrom(a: Args): Result<Provenance> {
    var producer :- Phrase(a, "producer");
    var version :- Phrase(a, "version");
    var sequence :- Number(a, "sequence");
    var observed :- NumberOr0(a, "observed");
    var _ :- Finish(a, PROVENANCE_KEYS);
    Ok(Provenance(producer, version, sequence, I64Of(observed)))
  }

  function ReadProvenance(d: Draft, a: Args): Result<Draft> {
    var d' :- Once(d, ProvenanceLine);
    var p :- ProvenanceFrom(a);
    Ok(d'.(request := d'.request.(provenance := p)))
  }

  const ATTEMPT_KEYS: seq<string> := ["id"]

  function ReadAttempt(d: Draft, a: Args): Result<Draft> {
    var d' :- Once(d, AttemptLine);
    var attempt :- Number(a, "id");
    var _ :- Finish(a, ATTEMPT_KEYS);
    Ok(d'.(request := d'.request.(attempt := attempt)))
  }

  // ---- lines and documents -----------------------------------------------------------------------------------

  const FORMAT_VERSION := 1

  function ReadVersion(d: Draft, tokens: seq<string>): Result<Draft> {
    if |tokens| != 1 then Err(MALFORMED_REQUEST)
    else
      var v :- ToNumber(tokens[0]);
      if v != FORMAT_VERSION then Err(UNSUPPORTED) else Ok(d)
  }

  /** A directive with its arguments; the version has none of these and is read on its own. */
  function Apply(d: Draft, line: Directive, a: Args, l: Limits): Result<Draft> {
    hide *;
    match line
    case VersionLine => Ok(d)
    case FlowLine => ReadFlow(d, a)
    case CandidatesetLine => ReadCandidates(d, a)
    case PathLine => ReadPath(d, a, l)
    case CapacityLine => ReadCapacity(d, a)
    case EntryLine => ReadEntry(d, a, l)
    case QosLine => ReadQos(d, a)
    case EvidenceLine => ReadEvidence(d, a)
    case UtilLine => ReadUtil(d, a, l)
    case PolicyLine => ReadPolicy(d, a, l)
    case IncumbentLine => ReadIncumbent(d, a)
    case OccupiedLine => ReadOccupied(d, a, l)
    case ExpectedLine => ReadExpected(d, a)
    case ProvenanceLine => ReadProvenance(d, a)
    case AttemptLine => ReadAttempt(d, a)
  }

  /** One directive; the arguments are checked before the directive is known. */
  function ReadWords(d: Draft, words: seq<string>, l: Limits): Result<Draft> {
    hide Apply, ReadVersion, ArgsOf, Recognize;
    if words == [] then Ok(d)
    else
      var line, tokens := Recognize(words[0]), words[1..];
      if line == Some(VersionLine) then ReadVersion(d, tokens)
      else
        var a :- ArgsOf(tokens);
        if line.None? then Err(MALFORMED_REQUEST) else Apply(d, line.value, a, l)
  }

  function ReadLine(d: Draft, line: string, l: Limits): Result<Draft> {
    hide *;
    if |line| > MAX_LINE then Err(OVERSIZE_REQUEST)
    else ReadWords(d, Words(line[..IndexOf(line, '#')]), l)
  }

  /** Line after line; the first that is refused decides. */
  function ReadLines(d: Draft, lines: seq<string>, l: Limits): Result<Draft>
    decreases |lines|
  {
    hide ReadLine;
    if lines == [] then Ok(d)
    else
      var d' :- ReadLine(d, lines[0], l);
      ReadLines(d', lines[1..], l)
  }

  const NO_RULES := Rules([], None, None, None, false, 0, false, 0, 0, false, 0, 0, false, 0, 0, 1, 1, 0)
  const NOTHING_ASKED := Request(
    Name(0, 0), Name(0, 0), [], Name(0, 0), [], Qos(0, 0, 0, 1, 0, 0), Policy(0, 0, NO_RULES, [], [], [], [], [], []), Name(0, 0), [],
    None, [], Expected(0, 0, 0, 0, 0, 0, 0), Provenance([], [], 0, 0), 0)

  const REQUIRED_LINES: set<Directive> := {FlowLine, CandidatesetLine, CapacityLine, QosLine, PolicyLine, ExpectedLine}

  function Completed(d: Draft): Result<Request> {
    if REQUIRED_LINES <= d.seen then Ok(d.request) else Err(MISSING_FIELD)
  }

  function Parse(text: string, l: Limits): Result<Request> {
    hide ReadLines, Split, Completed;
    if |text| > MAX_DOCUMENT then Err(OVERSIZE_REQUEST)
    else
      var d :- ReadLines(Draft(NOTHING_ASKED, {}), Split(text, '\n'), l);
      Completed(d)
  }
}
