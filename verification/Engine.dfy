/** The placement engine: hard exclusions, ranking, churn, admission, and the intent it emits. */
module Engine {
  import opened Bytes
  import opened Records
  import opened Sorting
  import opened Model
  import opened Validation
  import opened Ranking
  import opened Exclusions

  // ---- the request, prepared ------------------------------------------------------------------------

  /** What evaluation looks at. The sorted copies the lookups search are sets and maps. */
  datatype Prepared = Prepared(
    rules: Rules, qos: Qos, expected: Expected, congestionUsed: bool, evidenceBundle: bool, evidenceTrusted: bool,
    incumbentPath: Option<u64>, incumbentEligible: bool, overflow: bool, requiredBase: u64, requiredHeadroom: u64,
    residuals: map<u64, u64>, utilizations: map<u64, u32>, tiers: set<u8>, requiredLabels: set<u64>, forbiddenLabels: set<u64>,
    forbiddenLocalities: set<u64>, forbiddenDomains: set<u64>, occupied: set<u64>, affinity: set<Ref>)

  function ResidualsOf(cs: seq<Capacity>): map<u64, u64> {
    if cs == [] then map[] else ResidualsOf(cs[1..])[cs[0].path := cs[0].residual]
  }

  function UtilizationsOf(es: seq<Evidence>): map<u64, u32> {
    if es == [] then map[] else UtilizationsOf(es[1..])[es[0].path := es[0].utilization]
  }

  predicate CongestionUsed(rules: Rules) {
    exists o <- rules.objectives :: o.kind == CONGESTION
  }

  predicate Eligible(r: Request) {
    && r.incumbent.Some?
    && var i := r.incumbent.value;
    && i.pathAuthority == r.expected.path && i.candidates == r.expected.candidates
    && i.capacity == r.capacity.generation && i.policy == r.policy.generation && i.qos == r.qos.generation
    && i.epoch == r.expected.epoch && exists p <- r.paths :: p.id == i.path
  }

  function Prepare(r: Request): Prepared {
    var base := r.qos.required;
    var headroom := CheckedMul(base, HeadroomMultiplier(r.qos.serviceClass));
    var bundle := r.evidence.generation != 0;
    Prepared(
      r.policy.rules, r.qos, r.expected, CongestionUsed(r.policy.rules), bundle,
      bundle && r.expected.evidence != 0 && r.evidence.generation == r.expected.evidence,
      if r.incumbent.Some? then Some(r.incumbent.value.path) else None, Eligible(r),
      headroom.None?, base, if headroom.Some? then headroom.value else base,
      ResidualsOf(r.capacities), UtilizationsOf(r.evidences), set t <- r.policy.allowedTiers, set x <- r.policy.requiredLabels,
      set x <- r.policy.forbiddenLabels, set x <- r.policy.forbiddenLocalities, set x <- r.policy.forbiddenDomains,
      set x <- r.occupied, set x <- r.policy.affinity)
  }

  function RouteOf(p: Path): Route {
    Route(p.id, p.authority, p.tier, p.locality, p.domain, p.cost, p.latency, p.hops, set x <- p.labels, set x <- p.reservations)
  }

  // ---- hard exclusions --------------------------------------------------------------------------------

  const PATH_AUTHORITY_STALE: u8 := 0
  const TIER_NOT_ALLOWED: u8 := 1
  const FORBIDDEN_LABEL: u8 := 2
  const MISSING_REQUIRED_LABEL: u8 := 3
  const FORBIDDEN_LOCALITY: u8 := 4
  const LOCALITY_MISMATCH: u8 := 5
  const FORBIDDEN_FAILURE_DOMAIN: u8 := 6
  const REQUIRED_FAILURE_DOMAIN_MISMATCH: u8 := 7
  const FAILURE_DOMAIN_OCCUPIED: u8 := 8
  const CAPACITY_UNKNOWN: u8 := 9
  const CAPACITY_SHORT: u8 := 10
  const SERVICE_HEADROOM_UNMET: u8 := 11
  const SERVICE_RESERVATION_UNMET: u8 := 12
  const RESERVATION_AFFINITY_UNSATISFIED: u8 := 13
  const LATENCY_BUDGET_EXCEEDED: u8 := 14
  const EVIDENCE_MISSING: u8 := 15
  const EVIDENCE_STALE: u8 := 16

  /** How many different reasons Evaluate can give. */
  const REASONS := 17

  datatype Verdict =
    | Legal(multiplierRelaxed: bool, reservationRelaxed: bool, evidenceKnown: bool)
    | Excluded(reason: u8, required: u64, available: u64)

  /** The reservation requirement of a class, and whether relaxation may drop a requirement. */
  predicate ReservationRequired(q: Prepared) { q.qos.serviceClass == RESERVED }

  predicate MayRelax(q: Prepared, step: nat) { q.rules.allowDegraded && q.rules.relaxation >= step }

  /** The constraints that need no measurement, in the fixed order of reasons. */
  function PolicyReason(q: Prepared, p: Route): Option<u8> {
    if p.authority != q.expected.path then Some(PATH_AUTHORITY_STALE)
    else if q.tiers != {} && p.tier !in q.tiers then Some(TIER_NOT_ALLOWED)
    else if p.labels * q.forbiddenLabels != {} then Some(FORBIDDEN_LABEL)
    else if !(q.requiredLabels <= p.labels) then Some(MISSING_REQUIRED_LABEL)
    else if p.locality != 0 && p.locality in q.forbiddenLocalities then Some(FORBIDDEN_LOCALITY)
    else if q.rules.requiredLocality.Some? && p.locality != q.rules.requiredLocality.value then Some(LOCALITY_MISMATCH)
    else if p.domain != 0 && p.domain in q.forbiddenDomains then Some(FORBIDDEN_FAILURE_DOMAIN)
    else if q.rules.requiredDomain.Some? && p.domain != q.rules.requiredDomain.value then Some(REQUIRED_FAILURE_DOMAIN_MISMATCH)
    else if q.rules.avoidOccupied && p.domain != 0 && p.domain in q.occupied then Some(FAILURE_DOMAIN_OCCUPIED)
    else None
  }

  /** Whether the congestion evidence for a path excludes it, and whether it is known. */
  function EvidenceReason(q: Prepared, p: Route): Option<u8> {
    if !q.congestionUsed then None
    else if !q.evidenceTrusted then
      if q.evidenceBundle then (if q.rules.onStale == HARD_EXCLUDE then Some(EVIDENCE_STALE) else None)
      else if q.rules.onMissing == HARD_EXCLUDE then Some(EVIDENCE_MISSING)
      else None
    else if p.id !in q.utilizations && q.rules.onMissing == HARD_EXCLUDE then Some(EVIDENCE_MISSING)
    else None
  }

  predicate EvidenceKnown(q: Prepared, p: Route) {
    q.congestionUsed && q.evidenceTrusted && p.id in q.utilizations
  }

  /** The first constraint a candidate fails, or how it is legal. */
  function Evaluate(q: Prepared, p: Route): Verdict {
    var policy := PolicyReason(q, p);
    if policy.Some? then Excluded(policy.value, 0, 0)
    else if p.id !in q.residuals then Excluded(CAPACITY_UNKNOWN, 0, 0)
    else
      var residual := q.residuals[p.id];
      if residual < q.requiredBase then Excluded(CAPACITY_SHORT, q.requiredBase, residual)
      else if residual < q.requiredHeadroom && !MayRelax(q, 1) then Excluded(SERVICE_HEADROOM_UNMET, q.requiredHeadroom, residual)
      else
        var required := if residual < q.requiredHeadroom then q.requiredBase else q.requiredHeadroom;
        if ReservationRequired(q) && p.reservations == {} && !MayRelax(q, 2) then Excluded(SERVICE_RESERVATION_UNMET, required, residual)
        else if q.rules.affinityRequired && p.reservations * q.affinity == {}
        then Excluded(RESERVATION_AFFINITY_UNSATISFIED, required, residual)
        else if q.qos.maxLatency != 0 && p.latency > q.qos.maxLatency
        then Excluded(LATENCY_BUDGET_EXCEEDED, q.qos.maxLatency, p.latency)
        else
          var evidence := EvidenceReason(q, p);
          if evidence.Some? then Excluded(evidence.value, required, residual)
          else Legal(residual < q.requiredHeadroom, ReservationRequired(q) && p.reservations == {}, EvidenceKnown(q, p))
  }

  // ---- ranking ------------------------------------------------------------------------------------------

  predicate IsIncumbent(q: Prepared, p: Route) {
    q.incumbentPath == Some(p.id) && q.incumbentEligible
  }

  function KeyOf(q: Prepared, v: Verdict, p: Route, o: Objective): Key
    requires v.Legal? && p.id in q.residuals
  {
    var known := o.kind != CONGESTION || v.evidenceKnown;
    var value: u64 :=
      if o.kind == COST then p.cost
      else if o.kind == LATENCY then p.latency
      else if o.kind == RESIDUAL_CAPACITY then q.residuals[p.id]
      else if o.kind == HOP_COUNT then p.hops
      else if o.kind == CONGESTION then (if v.evidenceKnown && p.id in q.utilizations then q.utilizations[p.id] else 0)
      else if o.kind == TIER then p.tier
      else if o.kind == LOCALITY_AFFINITY then
        (if q.rules.preferredLocality.Some? && p.locality != q.rules.preferredLocality.value then 1 else 0)
      else if o.kind == RESERVATION_AFFINITY then
        (if q.affinity == {} || p.reservations * q.affinity != {} then 0 else 1)
      else if o.kind == INCUMBENT_STABILITY then
        (if IsIncumbent(q, p) then 0 else if q.incumbentEligible then 1 else 0)
      else 0;
    Key(o.kind, o.direction, known, value)
  }

  function KeysOf(q: Prepared, v: Verdict, p: Route, os: seq<Objective>): (ks: seq<Key>)
    requires v.Legal? && p.id in q.residuals
    ensures |ks| == |os| && forall i :: 0 <= i < |os| ==> ks[i].kind == os[i].kind && ks[i].direction == os[i].direction
  {
    if os == [] then [] else [KeyOf(q, v, p, os[0])] + KeysOf(q, v, p, os[1..])
  }

  function EntryOf(q: Prepared, v: Verdict, p: Route): Entry
    requires v.Legal? && p.id in q.residuals
  {
    var keys := KeysOf(q, v, p, q.rules.objectives);
    Entry(p, q.residuals[p.id], IsIncumbent(q, p), v.multiplierRelaxed, v.reservationRelaxed,
          exists k <- keys :: !k.known, keys)
  }

  lemma LegalHasResidual(q: Prepared, p: Route)
    ensures Evaluate(q, p).Legal? ==> p.id in q.residuals
  {
  }

  /** The legal candidates, as entries to rank. */
  function LegalEntries(q: Prepared, paths: seq<Path>): seq<Entry> {
    if paths == [] then []
    else
      var p := RouteOf(paths[|paths| - 1]);
      var before := LegalEntries(q, paths[..|paths| - 1]);
      LegalHasResidual(q, p);
      var v := Evaluate(q, p);
      if v.Legal? then before + [EntryOf(q, v, p)] else before
  }

  /** The excluded candidates, with their reasons. */
  function ExcludedPaths(q: Prepared, paths: seq<Path>): seq<Exclusion> {
    if paths == [] then []
    else
      var p := RouteOf(paths[|paths| - 1]);
      var before := ExcludedPaths(q, paths[..|paths| - 1]);
      var v := Evaluate(q, p);
      if v.Excluded? then before + [Exclusion(v.reason, v.required, v.available, p.id)] else before
  }

  // ---- decisions ------------------------------------------------------------------------------------------

  datatype Outcome = Placed | PlacedDegraded | Deferred | NoLegalPath | InsufficientCapacity | PolicyRejected | StaleInput | ConflictingInput

  datatype Degradation =
    | IncumbentSuperseded | IncumbentStale | ServiceRelaxed | HeadroomBelowComfort | LocalityPreferenceUnmet
    | ReservationPreferenceUnmet | EvidenceUnknown | ChurnSuppressed | NoIncumbentFlag

  predicate Degrading(d: Degradation) {
    d.ServiceRelaxed? || d.HeadroomBelowComfort? || d.LocalityPreferenceUnmet? || d.ReservationPreferenceUnmet? || d.EvidenceUnknown?
  }

  datatype AuthorityVector = AuthorityVector(
    path: u64, candidates: Name, capacity: Name, policy: Name, qos: Name, evidence: Name, epoch: u64)

  /** What a note says; the wording is left out. */
  datatype Note =
    | Rejection(code: StatusCode) | UntrustedEvidence | AbsentEvidence | Unplaced(code: StatusCode, unknownCapacity: bool)
    | TooFewDomains(distinct: nat, required: nat) | StaleIncumbent(id: u64) | Suppressed(improvement: u64, threshold: u64)
    | MoveDeferred | GateDeferred

  /** What a binding is about; the wording is left out. */
  datatype Topic = Dominant(count: nat, of: nat) | Diversity | Gate | Relaxed | Headroom

  datatype Binding = Binding(reason: u8, path: u64, required: nat, available: nat, topic: Topic)

  datatype RankedCandidate = RankedCandidate(path: u64, authority: u64, rank: nat, isIncumbent: bool, keys: seq<Key>)

  datatype Summary = Summary(reason: u8, count: nat, sample: seq<u64>)

  datatype Explanation = Explanation(
    truncated: bool, candidates: nat, legal: nat, excluded: nat, unknown: nat, domains: nat,
    ranked: seq<RankedCandidate>, exclusions: seq<Summary>, degradations: set<Degradation>, bindings: seq<Binding>, notes: seq<Note>)

  const NO_EXPLANATION := Explanation(false, 0, 0, 0, 0, 0, [], [], {}, [], [])

  datatype Decision = Decision(
    outcome: Outcome, code: StatusCode, validation: StatusCode, intent: Option<Intent>, authority: AuthorityVector,
    delta: Delta, explanation: Explanation)

  function AddNote(e: Explanation, n: Note): Explanation {
    if |e.notes| >= 16 then e.(truncated := true) else e.(notes := e.notes + [n])
  }

  function AddBinding(e: Explanation, b: Binding): Explanation {
    if |e.bindings| >= 8 then e.(truncated := true) else e.(bindings := e.bindings + [b])
  }

  function Flag(e: Explanation, d: Degradation, when: bool): Explanation {
    if when then e.(degradations := e.degradations + {d}) else e
  }

  function AuthorityOf(r: Request): AuthorityVector {
    AuthorityVector(r.expected.path, r.candidates, r.capacity, Name(r.policy.id, r.policy.generation),
                    Name(r.qos.id, r.qos.generation), r.evidence, r.expected.epoch)
  }

  predicate StaleCode(c: StatusCode) {
    c == STALE_AUTHORITY_GENERATION || 31 <= c <= 35 || c == STALE_EVIDENCE
  }

  function Reject(r: Request, code: StatusCode): Decision {
    Decision(if StaleCode(code) then StaleInput else ConflictingInput, code, code, None, AuthorityOf(r), NoIncumbent,
             AddNote(NO_EXPLANATION, Rejection(code)))
  }

  /** The first generation of the request that is not the expected one. */
  function StaleGeneration(r: Request): StatusCode {
    if r.candidates.generation != r.expected.candidates then STALE_CANDIDATE_SET
    else if r.capacity.generation != r.expected.capacity then STALE_CAPACITY_SNAPSHOT
    else if r.policy.generation != r.expected.policy then STALE_POLICY
    else if r.qos.generation != r.expected.qos then STALE_QOS
    else OK
  }

  function RelationOf(q: Prepared): Delta {
    if q.incumbentPath.None? then NoIncumbent else if q.incumbentEligible then Kept else ReplacedStale
  }

  // ---- when nothing is legal ---------------------------------------------------------------------------------

  predicate IsCapacityReason(r: u8) { r == CAPACITY_UNKNOWN || r == CAPACITY_SHORT }
  predicate IsServiceReason(r: u8) { r == SERVICE_HEADROOM_UNMET || r == SERVICE_RESERVATION_UNMET }
  predicate IsStalenessReason(r: u8) { r == PATH_AUTHORITY_STALE || r == EVIDENCE_STALE }
  predicate IsPolicyReason(r: u8) { 1 <= r <= 8 || r == RESERVATION_AFFINITY_UNSATISFIED || r == EVIDENCE_MISSING }
  predicate IsQosReason(r: u8) { r == LATENCY_BUDGET_EXCEEDED }

  predicate Only(x: Record, reason: u8) {
    |x.entries| == 1 && reason in x.entries
  }

  function CountOf(x: Record, reason: u8): nat {
    if reason in x.entries then x.entries[reason].count else 0
  }

  /** The summaries in the order of their reasons. */
  function SummariesFrom(x: Record, reason: nat): seq<Summary>
    requires reason <= 18
    decreases 18 - reason
  {
    if reason == 18 then []
    else
      var rest := SummariesFrom(x, reason + 1);
      if reason in x.entries then [Summary(reason, x.entries[reason].count, x.entries[reason].sample)] + rest else rest
  }

  datatype Classified = Classified(outcome: Outcome, code: StatusCode)

  /** The category that blocked the flow. */
  function Classify(x: Record, candidates: nat): Classified {
    var some := x.entries != map[];
    if candidates == 0 then Classified(NoLegalPath, NOT_FOUND)
    else if CountOf(x, PATH_AUTHORITY_STALE) == candidates then Classified(StaleInput, STALE_AUTHORITY_GENERATION)
    else if (some && forall r <- x.entries :: IsStalenessReason(r)) || Only(x, EVIDENCE_STALE) then Classified(StaleInput, STALE_EVIDENCE)
    else if some && forall r <- x.entries :: IsPolicyReason(r) then Classified(PolicyRejected, POLICY_REJECTED_ALL_PATHS)
    else if some && forall r <- x.entries :: IsServiceReason(r) then Classified(NoLegalPath, SERVICE_CLASS_UNSATISFIED)
    else if some && forall r <- x.entries :: IsCapacityReason(r) then
      Classified(InsufficientCapacity, if Only(x, CAPACITY_UNKNOWN) then NOT_FOUND else CAPACITY_INSUFFICIENT)
    else if some && forall r <- x.entries :: IsQosReason(r) then Classified(NoLegalPath, LATENCY_BUDGET_UNMET)
    else Classified(NoLegalPath, NOT_FOUND)
  }

  /** The first summary with the highest count. */
  function DominantOf(s: seq<Summary>): Option<Summary> {
    if s == [] then None
    else
      var before := DominantOf(s[..|s| - 1]);
      if before.None? || s[|s| - 1].count > before.value.count then Some(s[|s| - 1]) else before
  }

  function NothingLegal(d: Decision, x: Record): Decision {
    var c := Classify(x, d.explanation.candidates);
    var noted := AddNote(d.explanation, Unplaced(c.code, c.outcome == InsufficientCapacity && c.code == NOT_FOUND));
    var dominant := DominantOf(d.explanation.exclusions);
    var e := if dominant.Some? && dominant.value.reason in x.entries then
               var t := x.entries[dominant.value.reason];
               AddBinding(noted, Binding(dominant.value.reason, t.example, t.required, t.available,
                                         Dominant(dominant.value.count, d.explanation.candidates)))
             else noted;
    d.(outcome := c.outcome, code := c.code, explanation := e)
  }

  // ---- churn ----------------------------------------------------------------------------------------------------

  /** By how much the best candidate beats the incumbent on the threshold objective; unknown values do not count. */
  function Improvement(best: Key, current: Key): u64 {
    if !best.known || !current.known then 0
    else if best.direction == MINIMIZE then (if current.value > best.value then current.value - best.value else 0)
    else (if best.value > current.value then best.value - current.value else 0)
  }

  /** The place of a path among the ranked entries; their number when it is not there. */
  function IndexOf(ranked: seq<Entry>, path: u64): (i: nat)
    ensures i <= |ranked| && (i < |ranked| ==> ranked[i].route.id == path)
    ensures i == |ranked| ==> forall e <- ranked :: e.route.id != path
  {
    if ranked == [] then 0 else if ranked[0].route.id == path then 0 else 1 + IndexOf(ranked[1..], path)
  }

  /** The value of an entry for the n-th objective; unknown if there is none. */
  function KeyAt(e: Entry, n: nat): Key {
    if n < |e.keys| then e.keys[n] else Key(COST, MINIMIZE, false, 0)
  }

  /** By how much one entry beats another on the objective of the threshold. */
  function Beats(q: Prepared, best: Entry, current: Entry): u64 {
    Improvement(KeyAt(best, q.rules.thresholdIndex), KeyAt(current, q.rules.thresholdIndex))
  }

  /** The incumbent stays when the best candidate does not improve on it by more than the threshold. */
  function ChosenIndex(q: Prepared, ranked: seq<Entry>): (i: nat)
    ensures ranked != [] ==> i < |ranked|
  {
    if q.incumbentPath.None? || !q.incumbentEligible || !q.rules.preferIncumbent then 0
    else
      var i := IndexOf(ranked, q.incumbentPath.value);
      if i == 0 || i == |ranked| then 0
      else if Beats(q, ranked[0], ranked[i]) <= q.rules.moveThreshold then i else 0
  }

  function ChosenIn(q: Prepared, ranked: seq<Entry>): Option<Entry> {
    if ranked == [] then None else Some(ranked[ChosenIndex(q, ranked)])
  }

  function ChurnExplained(r: Request, q: Prepared, ranked: seq<Entry>, e: Explanation): Explanation {
    if q.incumbentPath.None? then Flag(e, NoIncumbentFlag, true)
    else if !q.incumbentEligible then
      AddNote(Flag(e, IncumbentStale, true), StaleIncumbent(if r.incumbent.Some? then r.incumbent.value.id else 0))
    else
      var i := ChosenIndex(q, ranked);
      if i == 0 || i >= |ranked| then e
      else AddNote(Flag(e, ChurnSuppressed, true), Suppressed(Beats(q, ranked[0], ranked[i]), q.rules.moveThreshold))
  }

  // ---- the intent --------------------------------------------------------------------------------------------------

  /** The first of a path's reservations the policy lists. */
  function FirstMatch(refs: seq<Ref>, affinity: set<Ref>): Ref {
    if refs == [] then NO_REF else if refs[0] in affinity then refs[0] else FirstMatch(refs[1..], affinity)
  }

  predicate RefBelow(a: Ref, b: Ref) {
    if a.id != b.id then a.id < b.id else a.generation < b.generation
  }

  /** The lowest of a path's reservations. */
  function LowestRef(refs: seq<Ref>): Ref
    requires refs != []
  {
    if |refs| == 1 then refs[0]
    else var rest := LowestRef(refs[1..]); if RefBelow(rest, refs[0]) then rest else refs[0]
  }

  function ReservationOf(q: Prepared, refs: seq<Ref>): Ref {
    var matched := if q.rules.affinityRequired || q.affinity != {} then FirstMatch(refs, q.affinity) else NO_REF;
    if !RefValid(matched) && ReservationRequired(q) && refs != [] then LowestRef(refs) else matched
  }

  function FindPath(paths: seq<Path>, id: u64): Option<Path> {
    if paths == [] then None else if paths[0].id == id then Some(paths[0]) else FindPath(paths[1..], id)
  }

  function IntentFor(r: Request, q: Prepared, chosen: Route, reservation: Ref): Intent {
    Intent(r.flow.id, r.flow.generation, chosen.id, chosen.authority, r.candidates.id, r.candidates.generation,
           r.capacity.id, r.capacity.generation, r.policy.id, r.policy.generation, r.qos.id, r.qos.generation,
           if q.evidenceTrusted then r.evidence.id else 0, if q.evidenceTrusted then r.evidence.generation else 0,
           r.expected.epoch, reservation.id, reservation.generation, r.attempt, r.policy.rules.revalidateAfter, 0, 0)
  }

  /** The independent check of an intent against its request. */
  predicate VerifyIntent(r: Request, l: Limits, i: Intent) {
    && ValidateRequest(r, l) == OK
    && i.flow == r.flow.id && i.flowGeneration == r.flow.generation
    && i.pathAuthority == r.expected.path
    && i.candidateSet == r.candidates.id && i.candidateSetGeneration == r.candidates.generation
    && i.capacity == r.capacity.id && i.capacityGeneration == r.capacity.generation
    && i.policy == r.policy.id && i.policyGeneration == r.policy.generation
    && i.qos == r.qos.id && i.qosGeneration == r.qos.generation
    && i.fabricEpoch == r.expected.epoch
    && (if i.evidenceGeneration != 0 then
          && i.evidenceGeneration == r.evidence.generation && i.evidence == r.evidence.id
          && r.expected.evidence != 0 && i.evidenceGeneration == r.expected.evidence
        else i.evidence == 0)
    && var found := FindPath(r.paths, i.path);
    && found.Some? && found.value.authority == i.pathAuthority
    && Evaluate(Prepare(r), RouteOf(found.value)).Legal?
    && (RefValid(Ref(i.reservation, i.reservationGeneration)) ==> Ref(i.reservation, i.reservationGeneration) in found.value.reservations)
  }

  // ---- from a ranking to a decision ---------------------------------------------------------------------------------

  function RankedOf(ranked: seq<Entry>, n: nat): seq<RankedCandidate>
    requires n <= |ranked|
  {
    if n == 0 then []
    else
      var e := ranked[n - 1];
      RankedOf(ranked, n - 1) + [RankedCandidate(e.route.id, e.route.authority, n - 1, e.isIncumbent, e.keys)]
  }

  function WithRanking(e: Explanation, ranked: seq<Entry>, maxRanked: nat): Explanation {
    var explained := if |ranked| < maxRanked then |ranked| else maxRanked;
    e.(ranked := RankedOf(ranked, explained), truncated := e.truncated || explained < |ranked|)
  }

  predicate Moving(q: Prepared, chosen: Entry) {
    q.incumbentPath.Some? && chosen.route.id != q.incumbentPath.value
  }

  function DeltaOf(q: Prepared, chosen: Entry): Delta {
    if q.incumbentPath.None? then NoIncumbent
    else if !q.incumbentEligible then ReplacedStale
    else if chosen.route.id == q.incumbentPath.value then Kept
    else Moved
  }

  /** Everything the chosen candidate leaves to be desired. */
  function Flagged(q: Prepared, chosen: Entry, e: Explanation): Explanation {
    var relaxed := chosen.multiplierRelaxed || chosen.reservationRelaxed;
    var e1 := Flag(e, ServiceRelaxed, relaxed);
    var e2 := if relaxed then AddBinding(e1, Binding(SERVICE_HEADROOM_UNMET, chosen.route.id, q.requiredHeadroom, chosen.residual, Relaxed)) else e1;
    var e3 := Flag(e2, LocalityPreferenceUnmet,
                   q.rules.preferredLocality.Some? && chosen.route.locality != q.rules.preferredLocality.value);
    var e4 := Flag(e3, ReservationPreferenceUnmet, q.affinity != {} && chosen.route.reservations * q.affinity == {});
    var e5 := Flag(e4, EvidenceUnknown, chosen.hasUnknown);
    Flag(e5, IncumbentSuperseded, q.incumbentEligible && Moving(q, chosen))
  }

  /** The admission gate, the flags, the intent and its verification, for the chosen candidate. */
  function Admit(r: Request, l: Limits, q: Prepared, d: Decision, chosen: Entry, reservation: Ref): Decision {
    var low := q.rules.minHeadroom != 0 && chosen.residual < q.rules.minHeadroom;
    var gate := Binding(CAPACITY_SHORT, chosen.route.id, q.rules.minHeadroom, chosen.residual, Gate);
    if low && q.rules.onBelow == DEFER then
      d.(outcome := Deferred, code := POLICY_HEADROOM_GATE, explanation := AddNote(AddBinding(d.explanation, gate), GateDeferred))
    else
      var e := if low then AddBinding(Flag(d.explanation, HeadroomBelowComfort, true), gate) else d.explanation;
      var flagged := Flagged(q, chosen, e);
      var intent := IntentFor(r, q, chosen.route, reservation);
      if !VerifyIntent(r, l, intent) then
        var rejected := Reject(r, INTERNAL_INVARIANT_VIOLATION);
        rejected.(explanation := rejected.explanation.(
          candidates := flagged.candidates, legal := flagged.legal, excluded := flagged.excluded, exclusions := flagged.exclusions))
      else
        var bound := AddBinding(flagged, Binding(CAPACITY_SHORT, chosen.route.id, q.requiredHeadroom, chosen.residual, Headroom));
        var outcome := if exists f <- bound.degradations :: Degrading(f) then PlacedDegraded else Placed;
        d.(outcome := outcome, code := OK, intent := Some(intent), delta := DeltaOf(q, chosen), explanation := bound)
  }

  /** Diversity, ranking, churn and what follows, over the ranked legal candidates, of which there is one at least. */
  function Conclude(r: Request, l: Limits, q: Prepared, d: Decision, ranked: seq<Entry>): Decision {
    var minimum := q.rules.minDistinct;
    if minimum != 0 && d.explanation.domains < minimum then
      d.(outcome := NoLegalPath, code := FAILURE_DOMAIN_DIVERSITY_UNMET,
         explanation := AddBinding(AddNote(d.explanation, TooFewDomains(d.explanation.domains, minimum)),
                                   Binding(FORBIDDEN_FAILURE_DOMAIN, 0, minimum, d.explanation.domains, Diversity)))
    else match ChosenIn(q, ranked)
      case None => d
      case Some(chosen) =>
        var d1 := d.(explanation := ChurnExplained(r, q, ranked, WithRanking(d.explanation, ranked, l.maxRanked)));
        if Moving(q, chosen) && q.rules.preferIncumbent && q.rules.onMove == DEFER
           && IndexOf(ranked, q.incumbentPath.value) != ChosenIndex(q, ranked) then
          d1.(outcome := Deferred, code := POLICY_MOVE_SUPPRESSED,
              delta := if q.incumbentEligible then Moved else ReplacedStale,
              explanation := AddNote(d1.explanation, MoveDeferred))
        else Admit(r, l, q, d1, chosen, ReservationOf(q, ReservationsAt(r.paths, chosen.route.id)))
  }

  /** The reservations listed for a path. */
  function ReservationsAt(paths: seq<Path>, id: u64): seq<Ref> {
    var path := FindPath(paths, id);
    if path.Some? then path.value.reservations else []
  }

  // ---- the decision ---------------------------------------------------------------------------------------------------

  function UnknownCount(legal: seq<Entry>): nat {
    if legal == [] then 0 else UnknownCount(legal[..|legal| - 1]) + if legal[|legal| - 1].hasUnknown then 1 else 0
  }

  function LegalDomains(legal: seq<Entry>): set<u64> {
    set e <- legal | e.route.domain != 0 :: e.route.domain
  }

  /** The explanation before ranking: counts, exclusions and the notes about evidence. */
  function Surveyed(r: Request, q: Prepared, legal: seq<Entry>, x: Record): Explanation {
    var e := NO_EXPLANATION.(
      candidates := |r.paths|, legal := |legal|, excluded := if |legal| <= |r.paths| then |r.paths| - |legal| else 0,
      unknown := UnknownCount(legal), domains := |LegalDomains(legal)|, exclusions := SummariesFrom(x, 0), truncated := x.truncated);
    var e1 := if !q.evidenceTrusted && q.evidenceBundle then AddNote(e, UntrustedEvidence) else e;
    if q.rules.onMissing != HARD_EXCLUDE && q.congestionUsed && !q.evidenceBundle then AddNote(e1, AbsentEvidence) else e1
  }

  function Survey(r: Request, l: Limits, q: Prepared, legal: seq<Entry>, x: Record): Decision {
    var d := Decision(NoLegalPath, OK, OK, None, AuthorityOf(r), RelationOf(q), Surveyed(r, q, legal, x));
    if legal == [] then NothingLegal(d, x)
    else Conclude(r, l, q, d, Ranked(legal))
  }

  /** The decision for a request. */
  function Decide(r: Request, l: Limits): Decision {
    var code := ValidateRequest(r, l);
    if code != OK then Reject(r, code)
    else if StaleGeneration(r) != OK then
      Decision(StaleInput, StaleGeneration(r), StaleGeneration(r), None, AuthorityOf(r), NoIncumbent,
               AddNote(NO_EXPLANATION.(candidates := |r.paths|), Rejection(StaleGeneration(r))))
    else
      var q := Prepare(r);
      if q.overflow then
        Decision(ConflictingInput, ARITHMETIC_OVERFLOW, ARITHMETIC_OVERFLOW, None, AuthorityOf(r), NoIncumbent,
                 AddNote(NO_EXPLANATION.(candidates := |r.paths|), Rejection(ARITHMETIC_OVERFLOW)))
      else
        Survey(r, l, q, LegalEntries(q, r.paths), Recorded(ExcludedPaths(q, r.paths), l.maxReasons, l.maxSamples))
  }

  // ---- the method ---------------------------------------------------------------------------------------------------------

  /** Evaluates candidate after candidate, keeping the legal ones and recording why the others are not. */
  method PlaceRequest(r: Request, l: Limits) returns (d: Decision)
    ensures d == Decide(r, l)
  {
    hide ValidateRequest, Evaluate, EntryOf, Prepare, AddTo, Survey, Reject, StaleGeneration, AuthorityOf, AddNote;
    var code := ValidateRequest(r, l);
    if code != OK { return Reject(r, code); }
    var stale := StaleGeneration(r);
    if stale != OK {
      return Decision(StaleInput, stale, stale, None, AuthorityOf(r), NoIncumbent,
                      AddNote(NO_EXPLANATION.(candidates := |r.paths|), Rejection(stale)));
    }
    var q := Prepare(r);
    if q.overflow {
      return Decision(ConflictingInput, ARITHMETIC_OVERFLOW, ARITHMETIC_OVERFLOW, None, AuthorityOf(r), NoIncumbent,
                      AddNote(NO_EXPLANATION.(candidates := |r.paths|), Rejection(ARITHMETIC_OVERFLOW)));
    }
    var exclusions := new ExclusionRecorder(l.maxReasons, l.maxSamples);
    var legal: seq<Entry> := [];
    ghost var seen: seq<Exclusion> := [];
    var i := 0;
    assert r.paths[..0] == [];
    while i < |r.paths|
      invariant 0 <= i <= |r.paths| && fresh(exclusions)
      invariant exclusions.maxReasons == l.maxReasons && exclusions.maxSamples == l.maxSamples
      invariant legal == LegalEntries(q, r.paths[..i]) && seen == ExcludedPaths(q, r.paths[..i])
      invariant exclusions.Contents() == Recorded(seen, l.maxReasons, l.maxSamples)
    {
      var path := RouteOf(r.paths[i]);
      assert r.paths[..i + 1][..i] == r.paths[..i];
      LegalHasResidual(q, path);
      var verdict := Evaluate(q, path);
      match verdict {
        case Excluded(reason, required, available) =>
          ghost var x := Exclusion(reason, required, available, path.id);
          assert (seen + [x])[..|seen|] == seen;
          exclusions.Add(reason, required, available, path.id);
          seen := seen + [x];
        case Legal(_, _, _) =>
          legal := legal + [EntryOf(q, verdict, path)];
      }
      i := i + 1;
    }
    assert r.paths[..i] == r.paths;
    d := Survey(r, l, q, legal, Record(exclusions.entries, exclusions.truncated));
  }
}
