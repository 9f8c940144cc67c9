/** What the engine promises: its intents verify, its choice is the best, and reasons are first failures. */
module EngineTheorems {
  import opened Bytes
  import opened Records
  import opened Sorting
  import opened Model
  import opened Validation
  import opened Ranking
  import opened Exclusions
  import opened Engine

  // ---- what the legal and excluded lists hold -------------------------------------------------------

  /** e is the entry of one of these paths, and that path is legal. */
  predicate EntryFrom(q: Prepared, paths: seq<Path>, e: Entry) {
    exists p <- paths :: LegalAs(q, RouteOf(p), e)
  }

  predicate LegalAs(q: Prepared, p: Route, e: Entry) {
    && Evaluate(q, p).Legal? && p.id in q.residuals && e == EntryOf(q, Evaluate(q, p), p)
  }

  lemma {:induction false} LegalMembers(q: Prepared, paths: seq<Path>)
    ensures forall e :: e in LegalEntries(q, paths) <==> EntryFrom(q, paths, e)
    ensures |LegalEntries(q, paths)| <= |paths|
    decreases |paths|
  {
    hide Evaluate, EntryOf, RouteOf;
    if paths != [] {
      var init, last := paths[..|paths| - 1], paths[|paths| - 1];
      LegalMembers(q, init);
      LegalHasResidual(q, RouteOf(last));
      assert forall p :: p in paths <==> p in init || p == last;
    }
  }

  /** x is the exclusion of one of these paths. */
  predicate ExclusionFrom(q: Prepared, paths: seq<Path>, x: Exclusion) {
    exists p <- paths :: ExcludedAs(q, RouteOf(p), x)
  }

  predicate ExcludedAs(q: Prepared, p: Route, x: Exclusion) {
    var v := Evaluate(q, p);
    v.Excluded? && x == Exclusion(v.reason, v.required, v.available, p.id)
  }

  lemma {:induction false} ExcludedMembers(q: Prepared, paths: seq<Path>)
    ensures forall x :: x in ExcludedPaths(q, paths) <==> ExclusionFrom(q, paths, x)
    decreases |paths|
  {
    hide Evaluate, RouteOf;
    if paths != [] {
      var init, last := paths[..|paths| - 1], paths[|paths| - 1];
      ExcludedMembers(q, init);
      assert forall p :: p in paths <==> p in init || p == last;
    }
  }

  lemma RouteId(p: Path)
    ensures RouteOf(p).id == p.id
  {
  }

  lemma EntryRoute(q: Prepared, p: Route, e: Entry)
    requires LegalAs(q, p, e)
    ensures e.route == p
  {
    hide Evaluate, KeysOf;
  }

  lemma LegalComparable(q: Prepared, paths: seq<Path>)
    requires Unique(paths, PathKey)
    ensures Comparable(LegalEntries(q, paths))
    decreases |paths|
  {
    LegalKeys(q, paths);
    LegalDistinct(q, paths);
    hide LegalEntries;
  }

  lemma {:induction false} LegalDistinct(q: Prepared, paths: seq<Path>)
    requires Unique(paths, PathKey)
    ensures var s := LegalEntries(q, paths); forall i, j :: 0 <= i < j < |s| ==> s[i].route.id != s[j].route.id
    decreases |paths|
  {
    hide Evaluate, EntryOf, RouteOf;
    if paths != [] {
      var init, last := paths[..|paths| - 1], paths[|paths| - 1];
      UniqueInit(paths);
      LegalDistinct(q, init);
      LegalMembers(q, init);
      LegalHasResidual(q, RouteOf(last));
      RouteId(last);
      forall e | e in LegalEntries(q, init) ensures e.route.id != last.id {
        var p :| p in init && LegalAs(q, RouteOf(p), e);
        EntryRoute(q, RouteOf(p), e);
        RouteId(p);
      }
      if Evaluate(q, RouteOf(last)).Legal? {
        EntryRoute(q, RouteOf(last), EntryOf(q, Evaluate(q, RouteOf(last)), RouteOf(last)));
      }
    }
  }

  lemma UniqueInit(paths: seq<Path>)
    requires Unique(paths, PathKey) && paths != []
    ensures Unique(paths[..|paths| - 1], PathKey)
    ensures forall p <- paths[..|paths| - 1] :: p.id != paths[|paths| - 1].id
  {
    var n := |paths| - 1;
    forall p | p in paths[..n] ensures p.id != paths[n].id {
      var i :| 0 <= i < n && paths[i] == p;
      assert PathKey(paths[i]) != PathKey(paths[n]);
    }
  }

  lemma {:induction false} ExcludedDistinct(q: Prepared, paths: seq<Path>)
    requires Unique(paths, PathKey)
    ensures Unique(ExcludedPaths(q, paths), PathOf)
    decreases |paths|
  {
    hide Evaluate, RouteOf;
    if paths != [] {
      var init, last := paths[..|paths| - 1], paths[|paths| - 1];
      UniqueInit(paths);
      ExcludedDistinct(q, init);
      ExcludedMembers(q, init);
      RouteId(last);
      forall x | x in ExcludedPaths(q, init) ensures x.path != last.id {
        var p :| p in init && ExcludedAs(q, RouteOf(p), x);
        RouteId(p);
      }
    }
  }

  // ---- the reason is the first failure ----------------------------------------------------------------

  /** Residual capacity, when it is known. */
  predicate Residual(q: Prepared, p: Route, low: nat) {
    p.id in q.residuals && q.residuals[p.id] >= low
  }

  /** The candidate fails the constraint with this number, each said on its own. */
  predicate Fails(q: Prepared, p: Route, reason: u8) {
    if reason == PATH_AUTHORITY_STALE then p.authority != q.expected.path
    else if reason == TIER_NOT_ALLOWED then q.tiers != {} && p.tier !in q.tiers
    else if reason == FORBIDDEN_LABEL then exists x <- p.labels :: x in q.forbiddenLabels
    else if reason == MISSING_REQUIRED_LABEL then exists x <- q.requiredLabels :: x !in p.labels
    else if reason == FORBIDDEN_LOCALITY then p.locality != 0 && p.locality in q.forbiddenLocalities
    else if reason == LOCALITY_MISMATCH then q.rules.requiredLocality.Some? && q.rules.requiredLocality != Some(p.locality)
    else if reason == FORBIDDEN_FAILURE_DOMAIN then p.domain != 0 && p.domain in q.forbiddenDomains
    else if reason == REQUIRED_FAILURE_DOMAIN_MISMATCH then q.rules.requiredDomain.Some? && q.rules.requiredDomain != Some(p.domain)
    else if reason == FAILURE_DOMAIN_OCCUPIED then q.rules.avoidOccupied && p.domain != 0 && p.domain in q.occupied
    else if reason == CAPACITY_UNKNOWN then p.id !in q.residuals
    else if reason == CAPACITY_SHORT then !Residual(q, p, q.requiredBase)
    else if reason == SERVICE_HEADROOM_UNMET then !Residual(q, p, q.requiredHeadroom) && !MayRelax(q, 1)
    else if reason == SERVICE_RESERVATION_UNMET then ReservationRequired(q) && p.reservations == {} && !MayRelax(q, 2)
    else if reason == RESERVATION_AFFINITY_UNSATISFIED then
      q.rules.affinityRequired && forall ref <- p.reservations :: ref !in q.affinity
    else if reason == LATENCY_BUDGET_EXCEEDED then q.qos.maxLatency != 0 && p.latency > q.qos.maxLatency
    else if reason == EVIDENCE_MISSING then
      q.congestionUsed && q.rules.onMissing == HARD_EXCLUDE
      && (if q.evidenceTrusted then p.id !in q.utilizations else !q.evidenceBundle)
    else if reason == EVIDENCE_STALE then
      q.congestionUsed && q.rules.onStale == HARD_EXCLUDE && !q.evidenceTrusted && q.evidenceBundle
    else false
  }

  /**
   A candidate is legal exactly when it fails no constraint; otherwise the reason given is the lowest
   numbered constraint it fails.
   */
  lemma ReasonIsFirstFailure(q: Prepared, p: Route)
    ensures Evaluate(q, p).Legal? <==> forall reason: u8 :: !Fails(q, p, reason)
    ensures Evaluate(q, p).Excluded? ==>
              var reason := Evaluate(q, p).reason;
              Fails(q, p, reason) && forall lower: u8 :: lower < reason ==> !Fails(q, p, lower)
  {
    hide PolicyReason, Fails;
    PolicyReasonIsFirst(q, p);
    if PolicyReason(q, p).None? { MeasuredReasonIsFirst(q, p); }
    forall reason: u8 | reason >= REASONS ensures !Fails(q, p, reason) { NoSuchReason(q, p, reason); }
  }

  lemma NoSuchReason(q: Prepared, p: Route, reason: u8)
    requires reason >= REASONS
    ensures !Fails(q, p, reason)
  {
  }

  lemma Meet<T(!new)>(a: set<T>, b: set<T>)
    ensures (exists x <- a :: x in b) <==> a * b != {}
    ensures (exists x <- a :: x !in b) <==> !(a <= b)
  {
    if x :| x in a && x in b { assert x in a * b; }
    if a * b != {} {
      assert (forall x :: x !in a * b) ==> a * b == {};
      assert exists x :: x in a * b;
    }
  }

  lemma PolicyReasonIsFirst(q: Prepared, p: Route)
    ensures PolicyReason(q, p).None? ==> forall reason: u8 :: reason < CAPACITY_UNKNOWN ==> !Fails(q, p, reason)
    ensures PolicyReason(q, p).Some? ==>
              var reason := PolicyReason(q, p).value;
              reason < CAPACITY_UNKNOWN && Fails(q, p, reason) && forall lower: u8 :: lower < reason ==> !Fails(q, p, lower)
  {
    Meet(p.labels, q.forbiddenLabels);
    Meet(q.requiredLabels, p.labels);
  }

  /** The part of the evaluation after the policy constraints. */
  lemma MeasuredReasonIsFirst(q: Prepared, p: Route)
    requires PolicyReason(q, p).None?
    ensures Evaluate(q, p).Legal? ==> forall reason: u8 :: CAPACITY_UNKNOWN <= reason < REASONS ==> !Fails(q, p, reason)
    ensures Evaluate(q, p).Excluded? ==>
              var reason := Evaluate(q, p).reason;
              && CAPACITY_UNKNOWN <= reason < REASONS && Fails(q, p, reason)
              && forall lower: u8 :: CAPACITY_UNKNOWN <= lower < reason ==> !Fails(q, p, lower)
  {
    hide PolicyReason;
    Meet(p.reservations, q.affinity);
  }

  // ---- every intent verifies --------------------------------------------------------------------------

  /** The headroom of a valid request never overflows. */
  lemma NeverOverflows(r: Request, l: Limits)
    requires ValidateRequest(r, l) == OK
    ensures !Prepare(r).overflow
  {
    hide ValidateRequest, FactsWellFormed, PolicyWellFormed, Domains, GenerationCode;
    AcceptsExactly(r, l);
  }

  lemma {:induction false} FindsPath(paths: seq<Path>, p: Path)
    requires Unique(paths, PathKey) && p in paths
    ensures FindPath(paths, p.id) == Some(p)
    decreases |paths|
  {
    if paths[0] != p {
      var i :| 0 <= i < |paths| && paths[i] == p;
      assert PathKey(paths[0]) != PathKey(paths[i]);
      assert paths[1..][i - 1] == p;
      forall i, j | 0 <= i < j < |paths[1..]| ensures PathKey(paths[1..][i]) != PathKey(paths[1..][j]) {
        assert paths[1..][i] == paths[i + 1] && paths[1..][j] == paths[j + 1];
      }
      FindsPath(paths[1..], p);
    }
  }

  lemma {:induction false} FirstMatchListed(refs: seq<Ref>, affinity: set<Ref>)
    ensures var m := FirstMatch(refs, affinity); m == NO_REF || (m in refs && m in affinity)
    ensures FirstMatch(refs, affinity) == NO_REF || exists ref <- refs :: ref in affinity
    decreases |refs|
  {
    if refs != [] { FirstMatchListed(refs[1..], affinity); }
  }

  lemma {:induction false} LowestListed(refs: seq<Ref>)
    requires refs != []
    ensures LowestRef(refs) in refs && forall ref <- refs :: !RefBelow(ref, LowestRef(refs))
    decreases |refs|
  {
    if |refs| > 1 {
      LowestListed(refs[1..]);
      assert forall ref :: ref in refs <==> ref == refs[0] || ref in refs[1..];
    }
  }

  lemma LegalHasAuthority(q: Prepared, p: Route)
    requires Evaluate(q, p).Legal?
    ensures p.authority == q.expected.path
  {
  }

  /** The intent for a legal candidate of a valid, current request passes its own verification. */
  lemma LegalVerifies(r: Request, l: Limits, p: Path, e: Entry)
    requires ValidateRequest(r, l) == OK && p in r.paths && LegalAs(Prepare(r), RouteOf(p), e)
    ensures FindPath(r.paths, e.route.id) == Some(p)
    ensures VerifyIntent(r, l, IntentFor(r, Prepare(r), e.route, ReservationOf(Prepare(r), p.reservations)))
  {
    hide ValidateRequest, Evaluate, PolicyWellFormed, RouteOf, FirstMatch, LowestRef, LegalAs;
    AcceptsExactly(r, l);
    var q := Prepare(r);
    EntryRoute(q, RouteOf(p), e);
    RouteId(p);
    FindsPath(r.paths, p);
    assert Evaluate(q, RouteOf(p)).Legal? by { LegalAsLegal(q, RouteOf(p), e); }
    LegalHasAuthority(q, RouteOf(p));
    RouteAuthority(p);
    FirstMatchListed(p.reservations, q.affinity);
    if p.reservations != [] { LowestListed(p.reservations); }
  }

  lemma LegalAsLegal(q: Prepared, p: Route, e: Entry)
    requires LegalAs(q, p, e)
    ensures Evaluate(q, p).Legal?
  {
  }

  lemma RouteAuthority(p: Path)
    ensures RouteOf(p).authority == p.authority
  {
  }

  /** The path of a ranked entry, which is legal. */
  lemma ChosenPath(r: Request, q: Prepared, e: Entry) returns (p: Path)
    requires e in LegalEntries(q, r.paths)
    ensures p in r.paths && LegalAs(q, RouteOf(p), e)
  {
    LegalMembers(q, r.paths);
    p :| p in r.paths && LegalAs(q, RouteOf(p), e);
  }

  /**
   Every intent the engine emits passes the independent verifier; the self-verification failure and the
   overflow of the headroom requirement are never reached.
   */
  lemma IntentsVerify(r: Request, l: Limits)
    ensures Harmless(r, l, Decide(r, l)) || ValidateRequest(r, l) != OK
    ensures ValidateRequest(r, l) != OK ==> Decide(r, l).intent.None?
  {
    hide ValidateRequest, Evaluate, Prepare, Survey, Recorded, LegalEntries, ExcludedPaths, VerifyIntent, AddNote, AuthorityOf;
    if ValidateRequest(r, l) == OK && StaleGeneration(r) == OK {
      NeverOverflows(r, l);
      SurveyVerifies(r, l, Recorded(ExcludedPaths(Prepare(r), r.paths), l.maxReasons, l.maxSamples));
    }
  }

  /** The intent, if there is one, passes the verifier, and neither error branch was taken. */
  predicate Harmless(r: Request, l: Limits, d: Decision) {
    hide *;
    && (d.intent.Some? ==> VerifyIntent(r, l, d.intent.value))
    && d.code != INTERNAL_INVARIANT_VIOLATION && d.code != ARITHMETIC_OVERFLOW
  }

  lemma SurveyVerifies(r: Request, l: Limits, x: Record)
    requires ValidateRequest(r, l) == OK
    ensures Harmless(r, l, Survey(r, l, Prepare(r), LegalEntries(Prepare(r), r.paths), x))
  {
    hide ValidateRequest, Prepare, LegalEntries, VerifyIntent, Surveyed, AuthorityOf, Classify, Ranked, Admit, ChurnExplained,
         WithRanking, AddBinding, AddNote, IndexOf;
    var q := Prepare(r);
    var legal := LegalEntries(q, r.paths);
    if legal != [] {
      RankedMembers(legal);
      var ranked := Ranked(legal);
      var chosen := ranked[ChosenIndex(q, ranked)];
      assert chosen in ranked;
      ChosenVerifies(r, l, chosen);
      forall d: Decision | d.intent.None?
        ensures Harmless(r, l, Admit(r, l, q, d, chosen, ReservationOf(q, ReservationsAt(r.paths, chosen.route.id))))
      {
        AdmitVerifies(r, l, q, d, chosen, ReservationOf(q, ReservationsAt(r.paths, chosen.route.id)));
      }
    } else {
      forall d: Decision | d.intent.None? ensures Harmless(r, l, NothingLegal(d, x)) {
        ClassifyCodes(x, d.explanation.candidates);
      }
    }
  }

  /** The intent for a legal entry of a valid request verifies. */
  lemma ChosenVerifies(r: Request, l: Limits, e: Entry)
    requires ValidateRequest(r, l) == OK && e in LegalEntries(Prepare(r), r.paths)
    ensures var q := Prepare(r); VerifyIntent(r, l, IntentFor(r, q, e.route, ReservationOf(q, ReservationsAt(r.paths, e.route.id))))
  {
    hide ValidateRequest, Prepare, LegalEntries, VerifyIntent, LegalAs, RouteOf, ReservationOf, IntentFor;
    var p := ChosenPath(r, Prepare(r), e);
    LegalVerifies(r, l, p, e);
  }

  lemma ClassifyCodes(x: Record, candidates: nat)
    ensures Classify(x, candidates).code != INTERNAL_INVARIANT_VIOLATION && Classify(x, candidates).code != ARITHMETIC_OVERFLOW
  {
  }

  lemma AdmitVerifies(r: Request, l: Limits, q: Prepared, d: Decision, chosen: Entry, reservation: Ref)
    requires VerifyIntent(r, l, IntentFor(r, q, chosen.route, reservation)) && d.intent.None?
    ensures Harmless(r, l, Admit(r, l, q, d, chosen, reservation))
  {
    hide VerifyIntent, IntentFor, Flagged, AddBinding, AddNote;
  }

  // ---- the choice is the best ---------------------------------------------------------------------------

  /** No other legal candidate ranks before this one. */
  predicate IsBest(legal: seq<Entry>, e: Entry) {
    e in legal && forall x <- legal :: x == e || RankLess(e, x)
  }

  /** This is the incumbent and may stay: the best candidate improves on it by no more than the threshold. */
  predicate Keeps(q: Prepared, legal: seq<Entry>, e: Entry) {
    && e in legal && q.incumbentEligible && q.rules.preferIncumbent && q.incumbentPath == Some(e.route.id)
    && exists best <- legal :: IsBest(legal, best) && Beats(q, best, e) <= q.rules.moveThreshold
  }

  /** The incumbent that may stay, or else the best. */
  predicate IsChoice(q: Prepared, legal: seq<Entry>, e: Entry) {
    Keeps(q, legal, e) || (IsBest(legal, e) && forall i <- legal :: !Keeps(q, legal, i))
  }

  lemma FirstIsBest(legal: seq<Entry>)
    requires Comparable(legal) && legal != []
    ensures |Ranked(legal)| == |legal| && forall e :: IsBest(legal, e) <==> e == Ranked(legal)[0]
  {
    hide Alike, RankLess, Ranked;
    RankedKeeps(legal);
    var ranked := Ranked(legal);
    assert ranked[0] in ranked;
    forall x | x in legal && x != ranked[0] ensures RankLess(ranked[0], x) && !RankLess(x, ranked[0]) {
      assert x in ranked;
      var i :| 0 <= i < |ranked| && ranked[i] == x;
      assert RankLess(ranked[0], ranked[i]);
      NeverBoth(legal, ranked[0], x);
    }
  }

  lemma NeverBoth(legal: seq<Entry>, a: Entry, b: Entry)
    requires Comparable(legal) && a in legal && b in legal && a != b && RankLess(a, b)
    ensures !RankLess(b, a)
  {
    hide RankLess, Alike;
    var i :| 0 <= i < |legal| && legal[i] == a;
    var j :| 0 <= j < |legal| && legal[j] == b;
    RankLessIsStrictTotal(a, b, a);
  }

  /** What the engine chooses from the ranking is the incumbent that may stay, or else the best. */
  lemma ChosenIsBest(q: Prepared, legal: seq<Entry>)
    requires Comparable(legal)
    ensures forall e :: ChosenIn(q, Ranked(legal)) == Some(e) <==> IsChoice(q, legal, e)
  {
    hide Alike, RankLess, Ranked, Comparable, IsBest, Beats;
    RankedMembers(legal);
    if legal != [] {
      FirstIsBest(legal);
      var ranked := Ranked(legal);
      assert ranked[0] in ranked;
      forall e ensures ChosenIn(q, ranked) == Some(e) <==> IsChoice(q, legal, e) {
        ChosenIsChoice(q, legal, ranked, e);
      }
    } else {
      NoneChosen(q);
    }
  }

  lemma NoneChosen(q: Prepared)
    ensures forall e :: !IsChoice(q, [], e)
  {
  }

  lemma ChosenIsChoice(q: Prepared, legal: seq<Entry>, ranked: seq<Entry>, e: Entry)
    requires Comparable(legal) && ranked != [] && (forall x :: x in ranked <==> x in legal)
    requires forall x :: IsBest(legal, x) <==> x == ranked[0]
    ensures ChosenIn(q, ranked) == Some(e) <==> IsChoice(q, legal, e)
  {
    hide Alike, RankLess, IsBest, Improvement;
    var i := if q.incumbentPath.Some? then IndexOf(ranked, q.incumbentPath.value) else 0;
    assert ranked[0] in legal;
    if q.incumbentPath.Some? && i < |ranked| {
      var current := ranked[i];
      assert current in legal;
      forall x | x in legal && x.route.id == current.route.id ensures x == current { OneEntry(legal, x, current); }
      SameNeverBeats(q, current);
      assert q.incumbentEligible && q.rules.preferIncumbent ==>
          (Keeps(q, legal, current) <==> Beats(q, ranked[0], current) <= q.rules.moveThreshold);
    }
  }

  lemma SameNeverBeats(q: Prepared, e: Entry)
    ensures Beats(q, e, e) == 0
  {
  }

  lemma OneEntry(legal: seq<Entry>, a: Entry, b: Entry)
    requires Comparable(legal) && a in legal && b in legal && a.route.id == b.route.id
    ensures a == b
  {
    hide Alike;
  }

  /** The choice is not deferred, and the legal candidates are diverse enough. */
  predicate Admitted(q: Prepared, legal: seq<Entry>, e: Entry) {
    && (q.rules.minDistinct == 0 || |LegalDomains(legal)| >= q.rules.minDistinct)
    && !(Moving(q, e) && q.rules.preferIncumbent && q.rules.onMove == DEFER)
    && !(q.rules.minHeadroom != 0 && e.residual < q.rules.minHeadroom && q.rules.onBelow == DEFER)
  }

  /** The decision places the flow on this path. */
  predicate PlacesOn(d: Decision, path: u64) {
    d.intent.Some? && d.intent.value.path == path
  }

  /** Every entry has a value for the objective of the threshold. */
  predicate ThresholdListed(q: Prepared, legal: seq<Entry>) {
    forall e <- legal :: q.rules.thresholdIndex < |e.keys|
  }

  lemma {:induction false} LegalKeys(q: Prepared, paths: seq<Path>)
    ensures forall e <- LegalEntries(q, paths) ::
              |e.keys| == |q.rules.objectives|
              && forall i :: 0 <= i < |e.keys| ==> e.keys[i].direction == q.rules.objectives[i].direction
    decreases |paths|
  {
    hide Evaluate, KeyOf;
    if paths != [] {
      LegalKeys(q, paths[..|paths| - 1]);
    }
  }

  lemma ThresholdInRange(r: Request, l: Limits)
    requires ValidateRequest(r, l) == OK
    ensures r.policy.rules.thresholdIndex < |r.policy.rules.objectives|
  {
    AcceptsExactly(r, l);
  }

  lemma LegalThreshold(r: Request, l: Limits)
    requires ValidateRequest(r, l) == OK
    ensures ThresholdListed(Prepare(r), LegalEntries(Prepare(r), r.paths))
  {
    hide ValidateRequest, LegalEntries, Prepare;
    ThresholdInRange(r, l);
    LegalKeys(Prepare(r), r.paths);
    RulesPrepared(r);
  }

  lemma RulesPrepared(r: Request)
    ensures Prepare(r).rules == r.policy.rules && Prepare(r).expected == r.expected
  {
  }

  /** The choice among the legal candidates of a request, if it is not deferred. */
  predicate Elected(r: Request, e: Entry) {
    var q := Prepare(r);
    var legal := LegalEntries(q, r.paths);
    IsChoice(q, legal, e) && Admitted(q, legal, e)
  }

  lemma DecidesBySurvey(r: Request, l: Limits)
    requires ValidateRequest(r, l) == OK && StaleGeneration(r) == OK
    ensures Decide(r, l) ==
            Survey(r, l, Prepare(r), LegalEntries(Prepare(r), r.paths), Recorded(ExcludedPaths(Prepare(r), r.paths), l.maxReasons, l.maxSamples))
  {
    hide ValidateRequest, Prepare, LegalEntries, ExcludedPaths, Recorded, Survey, StaleGeneration, Reject, AuthorityOf;
    NeverOverflows(r, l);
  }

  lemma ValidComparable(r: Request, l: Limits)
    requires ValidateRequest(r, l) == OK
    ensures Comparable(LegalEntries(Prepare(r), r.paths))
  {
    hide ValidateRequest, Prepare, LegalEntries, PolicyWellFormed, GenerationCode, Domains, Comparable;
    AcceptsExactly(r, l);
    LegalComparable(Prepare(r), r.paths);
  }

  /**
   The engine places the flow of a valid, current request exactly when the choice among its legal candidates
   is not deferred, and then on that candidate's path.
   */
  lemma PlacesExactly(r: Request, l: Limits, path: u64)
    requires ValidateRequest(r, l) == OK && StaleGeneration(r) == OK
    ensures PlacesOn(Decide(r, l), path) <==> exists e <- LegalEntries(Prepare(r), r.paths) :: e.route.id == path && Elected(r, e)
  {
    hide ValidateRequest, Prepare, LegalEntries, ExcludedPaths, Recorded, Survey, StaleGeneration, Decide, IsChoice, Admitted,
         Ranked, Comparable;
    DecidesBySurvey(r, l);
    ValidComparable(r, l);
    var q := Prepare(r);
    var legal := LegalEntries(q, r.paths);
    var x := Recorded(ExcludedPaths(q, r.paths), l.maxReasons, l.maxSamples);
    ChosenIsBest(q, legal);
    RankedMembers(legal);
    match ChosenIn(q, Ranked(legal)) {
      case None =>
        if legal != [] { ChosenThere(q, legal); }
        NothingPlaced(r, l, q, x, path);
      case Some(e) =>
        assert e in Ranked(legal) by { ChosenListed(q, Ranked(legal)); }
        ChosenVerifies(r, l, e);
        SurveyPlaces(r, l, q, legal, x, e);
    }
  }

  lemma ChosenThere(q: Prepared, legal: seq<Entry>)
    requires legal != []
    ensures ChosenIn(q, Ranked(legal)).Some?
  {
    hide Ranked;
    RankedMembers(legal);
  }

  lemma ChosenListed(q: Prepared, ranked: seq<Entry>)
    ensures forall e :: ChosenIn(q, ranked) == Some(e) ==> e in ranked
  {
    hide ChosenIndex;
  }

  lemma NothingPlaced(r: Request, l: Limits, q: Prepared, x: Record, path: u64)
    ensures !PlacesOn(Survey(r, l, q, [], x), path)
  {
    hide Classify, DominantOf, AddNote, AddBinding, Surveyed, AuthorityOf;
  }

  lemma SurveyedDomains(r: Request, q: Prepared, legal: seq<Entry>, x: Record)
    ensures Surveyed(r, q, legal, x).domains == |LegalDomains(legal)|
  {
    hide LegalDomains, UnknownCount, SummariesFrom;
  }

  lemma SurveyPlaces(r: Request, l: Limits, q: Prepared, legal: seq<Entry>, x: Record, e: Entry)
    requires legal != [] && ChosenIn(q, Ranked(legal)) == Some(e)
    requires VerifyIntent(r, l, IntentFor(r, q, e.route, ReservationOf(q, ReservationsAt(r.paths, e.route.id))))
    ensures forall path :: PlacesOn(Survey(r, l, q, legal, x), path) <==> path == e.route.id && Admitted(q, legal, e)
  {
    hide AuthorityOf, Ranked, AddBinding, AddNote, ChosenIndex, ChurnExplained, WithRanking, VerifyIntent, Flagged, ReservationOf,
         ReservationsAt, LegalDomains, Surveyed;
    SurveyedDomains(r, q, legal, x);
    var ranked := Ranked(legal);
    if Moving(q, e) {
      var i := IndexOf(ranked, q.incumbentPath.value);
      assert i < |ranked| ==> ranked[i].route.id != e.route.id;
    }
  }

  /**
   When the engine places a flow, the path is that of the best legal candidate, unless an eligible
   incumbent is kept, on which the best improves by no more than the policy's threshold.
   */
  lemma PlacesTheBest(r: Request, l: Limits) returns (chosen: Entry)
    requires Decide(r, l).intent.Some?
    ensures ValidateRequest(r, l) == OK && PlacesOn(Decide(r, l), chosen.route.id) && chosen.route.authority == r.expected.path
    ensures Elected(r, chosen) && ThresholdListed(Prepare(r), LegalEntries(Prepare(r), r.paths))
    ensures Tells(r, Prepare(r), Decide(r, l), chosen)
  {
    hide ValidateRequest, Evaluate, Prepare, Recorded, LegalEntries, ExcludedPaths, AddNote, AuthorityOf, IsChoice, Surveyed,
         Ranked, RouteOf, Survey, Elected, Comparable;
    var q := Prepare(r);
    var legal := LegalEntries(q, r.paths);
    DecidesBySurvey(r, l);
    ValidComparable(r, l);
    LegalThreshold(r, l);
    chosen := SurveyChooses(r, l, q, legal, Recorded(ExcludedPaths(q, r.paths), l.maxReasons, l.maxSamples));
    PlacesExactly(r, l, chosen.route.id);
    assert Elected(r, chosen) by { ElectedAgain(r, l, chosen); }
    var p := ChosenPath(r, q, chosen);
    LegalAsLegal(q, RouteOf(p), chosen);
    EntryRoute(q, RouteOf(p), chosen);
    LegalHasAuthority(q, RouteOf(p));
    RulesPrepared(r);
  }

  /** The elected entry is the one of its path. */
  lemma ElectedAgain(r: Request, l: Limits, e: Entry)
    requires ValidateRequest(r, l) == OK && e in LegalEntries(Prepare(r), r.paths)
    requires exists x <- LegalEntries(Prepare(r), r.paths) :: x.route.id == e.route.id && Elected(r, x)
    ensures Elected(r, e)
  {
    hide ValidateRequest, Prepare, LegalEntries, Elected, Comparable;
    ValidComparable(r, l);
    var legal := LegalEntries(Prepare(r), r.paths);
    var x :| x in legal && x.route.id == e.route.id && Elected(r, x);
    OneEntry(legal, x, e);
  }

  lemma SurveyChooses(r: Request, l: Limits, q: Prepared, legal: seq<Entry>, x: Record) returns (chosen: Entry)
    requires Survey(r, l, q, legal, x).intent.Some?
    ensures var d := Survey(r, l, q, legal, x); chosen in legal && PlacesOn(d, chosen.route.id) && Tells(r, q, d, chosen)
  {
    hide AuthorityOf, Classify, Ranked, AddBinding, AddNote, IndexOf, ChosenIndex, Surveyed, ChurnExplained, WithRanking,
         Admit, ReservationOf, ReservationsAt, Tells;
    RankedMembers(legal);
    var ranked := Ranked(legal);
    chosen := ranked[ChosenIndex(q, ranked)];
    assert chosen in ranked;
    var e := ChurnExplained(r, q, ranked, WithRanking(Surveyed(r, q, legal, x), ranked, l.maxRanked));
    PlainBefore(r, q, legal, x, ranked, l.maxRanked);
    forall d: Decision, ref: Ref | d.intent.None? && d.explanation == e && Admit(r, l, q, d, chosen, ref).intent.Some?
      ensures PlacesOn(Admit(r, l, q, d, chosen, ref), chosen.route.id) && Tells(r, q, Admit(r, l, q, d, chosen, ref), chosen)
    {
      AdmitTells(r, l, q, d, chosen, ref);
    }
  }

  /** No flag so far makes the placement a degraded one. */
  predicate Plain(e: Explanation) {
    forall f <- e.degradations :: !Degrading(f)
  }

  lemma PlainBefore(r: Request, q: Prepared, legal: seq<Entry>, x: Record, ranked: seq<Entry>, maxRanked: nat)
    ensures Plain(ChurnExplained(r, q, ranked, WithRanking(Surveyed(r, q, legal, x), ranked, maxRanked)))
  {
    hide RankedOf, Surveyed, ChosenIndex, Beats;
    NoFlags(r, q, legal, x);
  }

  lemma NoFlags(r: Request, q: Prepared, legal: seq<Entry>, x: Record)
    ensures Surveyed(r, q, legal, x).degradations == {}
  {
    hide SummariesFrom, UnknownCount, LegalDomains;
  }

  /** Nothing about the chosen candidate is left to be desired. */
  predicate Ideal(q: Prepared, e: Entry) {
    && !e.multiplierRelaxed && !e.reservationRelaxed && !e.hasUnknown
    && (q.rules.minHeadroom != 0 ==> e.residual >= q.rules.minHeadroom)
    && (q.rules.preferredLocality.Some? ==> e.route.locality == q.rules.preferredLocality.value)
    && (q.affinity != {} ==> e.route.reservations * q.affinity != {})
  }

  /**
   What a placing decision tells: the request's attempt and revalidation interval, how the choice relates
   to the incumbent, and by its outcome whether anything is left to be desired.
   */
  predicate Tells(r: Request, q: Prepared, d: Decision, chosen: Entry) {
    && d.intent.Some? && d.code == OK
    && d.intent.value.attempt == r.attempt && d.intent.value.revalidateAfterNanos == r.policy.rules.revalidateAfter
    && (d.delta == NoIncumbent <==> q.incumbentPath.None?)
    && (d.delta == ReplacedStale <==> q.incumbentPath.Some? && !q.incumbentEligible)
    && (d.delta == Kept <==> q.incumbentPath == Some(chosen.route.id) && q.incumbentEligible)
    && (d.outcome == Placed <==> Ideal(q, chosen)) && (d.outcome == PlacedDegraded <==> !Ideal(q, chosen))
  }

  lemma AdmitTells(r: Request, l: Limits, q: Prepared, d: Decision, chosen: Entry, ref: Ref)
    requires d.intent.None? && Plain(d.explanation) && Admit(r, l, q, d, chosen, ref).intent.Some?
    ensures PlacesOn(Admit(r, l, q, d, chosen, ref), chosen.route.id)
    ensures Tells(r, q, Admit(r, l, q, d, chosen, ref), chosen)
  {
    hide VerifyIntent, Plain, Flagged, AddBinding, Ideal, Degrading, AddNote;
    var low := q.rules.minHeadroom != 0 && chosen.residual < q.rules.minHeadroom;
    var gate := Binding(CAPACITY_SHORT, chosen.route.id, q.rules.minHeadroom, chosen.residual, Gate);
    var e := if low then AddBinding(Flag(d.explanation, HeadroomBelowComfort, true), gate) else d.explanation;
    var bound := AddBinding(Flagged(q, chosen, e), Binding(CAPACITY_SHORT, chosen.route.id, q.requiredHeadroom, chosen.residual, Headroom));
    FlagsTell(q, chosen, d.explanation, low, gate);
  }

  /** A binding tells of no degradation, and Flagged tells exactly these beyond those told before. */
  lemma FlaggedTells(q: Prepared, chosen: Entry, e: Explanation, b: Binding, f: Degradation)
    requires Degrading(f)
    ensures f in AddBinding(Flagged(q, chosen, e), b).degradations <==>
              f in e.degradations
              || (f == ServiceRelaxed && (chosen.multiplierRelaxed || chosen.reservationRelaxed))
              || (f == LocalityPreferenceUnmet
                  && q.rules.preferredLocality.Some? && chosen.route.locality != q.rules.preferredLocality.value)
              || (f == ReservationPreferenceUnmet && q.affinity != {} && chosen.route.reservations * q.affinity == {})
              || (f == EvidenceUnknown && chosen.hasUnknown)
  {
    hide Moving;
  }

  lemma FlagsTell(q: Prepared, chosen: Entry, e0: Explanation, low: bool, gate: Binding)
    requires Plain(e0) && low == (q.rules.minHeadroom != 0 && chosen.residual < q.rules.minHeadroom)
    ensures var e := if low then AddBinding(Flag(e0, HeadroomBelowComfort, true), gate) else e0;
            var bound := AddBinding(Flagged(q, chosen, e), Binding(CAPACITY_SHORT, chosen.route.id, q.requiredHeadroom, chosen.residual, Headroom));
            (exists f <- bound.degradations :: Degrading(f)) <==> !Ideal(q, chosen)
  {
    hide Flagged;
    var e := if low then AddBinding(Flag(e0, HeadroomBelowComfort, true), gate) else e0;
    var b := Binding(CAPACITY_SHORT, chosen.route.id, q.requiredHeadroom, chosen.residual, Headroom);
    assert forall f | Degrading(f) :: f in e.degradations <==> f == HeadroomBelowComfort && low;
    hide AddBinding, Flag;
    forall f | Degrading(f) && f in AddBinding(Flagged(q, chosen, e), b).degradations ensures !Ideal(q, chosen) {
      FlaggedTells(q, chosen, e, b, f);
    }
    FlaggedTells(q, chosen, e, b, HeadroomBelowComfort);
    FlaggedTells(q, chosen, e, b, ServiceRelaxed);
    FlaggedTells(q, chosen, e, b, LocalityPreferenceUnmet);
    FlaggedTells(q, chosen, e, b, ReservationPreferenceUnmet);
    FlaggedTells(q, chosen, e, b, EvidenceUnknown);
  }
}
