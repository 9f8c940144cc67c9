/** When the order of what a request lists shows in the decision, and exactly when it does not. */
module EngineOrder {
  import opened Bytes
  import opened Records
  import opened Sorting
  import opened Model
  import opened Validation
  import opened Ranking
  import opened Exclusions
  import opened Engine
  import opened EngineTheorems

  // ---- the order of the input ---------------------------------------------------------------------------------

  /** A path up to the order of its labels and reservations. */
  datatype Shape = Shape(
    id: u64, authority: u64, tier: u8, locality: u64, scope: u8, domain: u64, cost: u64, latency: u64, hops: u16,
    labels: multiset<u64>, reservations: multiset<Ref>)

  function ShapeOf(p: Path): Shape {
    Shape(p.id, p.authority, p.tier, p.locality, p.scope, p.domain, p.cost, p.latency, p.hops,
          multiset(p.labels), multiset(p.reservations))
  }

  function ShapesOf(paths: seq<Path>): seq<Shape> {
    if paths == [] then [] else [ShapeOf(paths[0])] + ShapesOf(paths[1..])
  }

  function WithoutLists(p: Policy): Policy {
    p.(allowedTiers := [], requiredLabels := [], forbiddenLabels := [], forbiddenLocalities := [], forbiddenDomains := [], affinity := [])
  }

  /** The requests differ at most in the order of what they list. */
  ghost predicate Permuted(r: Request, s: Request) {
    && r.(paths := s.paths, capacities := s.capacities, evidences := s.evidences, occupied := s.occupied, policy := s.policy) == s
    && WithoutLists(r.policy) == WithoutLists(s.policy)
    && multiset(ShapesOf(r.paths)) == multiset(ShapesOf(s.paths))
    && multiset(r.capacities) == multiset(s.capacities) && multiset(r.evidences) == multiset(s.evidences)
    && multiset(r.occupied) == multiset(s.occupied)
    && multiset(r.policy.allowedTiers) == multiset(s.policy.allowedTiers)
    && multiset(r.policy.requiredLabels) == multiset(s.policy.requiredLabels)
    && multiset(r.policy.forbiddenLabels) == multiset(s.policy.forbiddenLabels)
    && multiset(r.policy.forbiddenLocalities) == multiset(s.policy.forbiddenLocalities)
    && multiset(r.policy.forbiddenDomains) == multiset(s.policy.forbiddenDomains)
    && multiset(r.policy.affinity) == multiset(s.policy.affinity)
  }

  lemma SameMembers<T>(a: seq<T>, b: seq<T>)
    requires multiset(a) == multiset(b)
    ensures (forall x :: x in a <==> x in b) && |a| == |b|
  {
    assert forall x :: x in a <==> x in multiset(a);
    assert forall x :: x in b <==> x in multiset(b);
    assert |multiset(a)| == |a| && |multiset(b)| == |b|;
  }

  lemma {:induction false} ShapeMembers(paths: seq<Path>)
    ensures forall h :: h in ShapesOf(paths) <==> exists p <- paths :: ShapeOf(p) == h
    ensures |ShapesOf(paths)| == |paths|
    decreases |paths|
  {
    hide ShapeOf;
    if paths != [] {
      ShapeMembers(paths[1..]);
      assert forall p :: p in paths <==> p == paths[0] || p in paths[1..];
    }
  }

  /** Every path of one request has its counterpart in the other. */
  lemma Counterpart(r: Request, s: Request, p: Path) returns (p': Path)
    requires Permuted(r, s) && p in r.paths
    ensures p' in s.paths && ShapeOf(p') == ShapeOf(p)
  {
    hide ShapeOf;
    ShapeMembers(r.paths);
    ShapeMembers(s.paths);
    SameMembers(ShapesOf(r.paths), ShapesOf(s.paths));
    assert ShapeOf(p) in ShapesOf(r.paths);
    p' :| p' in s.paths && ShapeOf(p') == ShapeOf(p);
  }

  lemma SameRoute(p: Path, p': Path)
    requires ShapeOf(p) == ShapeOf(p')
    ensures RouteOf(p) == RouteOf(p') && p.id == p'.id && multiset(p.reservations) == multiset(p'.reservations)
  {
    SameMembers(p.labels, p'.labels);
    SameMembers(p.reservations, p'.reservations);
  }

  lemma PermutedBack(r: Request, s: Request)
    requires Permuted(r, s)
    ensures Permuted(s, r)
  {
    hide ShapesOf;
  }

  lemma {:induction false} ResidualsLookup(cs: seq<Capacity>)
    requires Unique(cs, CapacityKey)
    ensures forall c <- cs :: c.path in ResidualsOf(cs) && ResidualsOf(cs)[c.path] == c.residual
    ensures forall id <- ResidualsOf(cs) :: exists c <- cs :: c.path == id
    decreases |cs|
  {
    if cs != [] {
      var rest := cs[1..];
      assert forall c :: c in cs <==> c == cs[0] || c in rest;
      forall i, j | 0 <= i < j < |rest| ensures CapacityKey(rest[i]) != CapacityKey(rest[j]) {
        assert rest[i] == cs[i + 1] && rest[j] == cs[j + 1];
      }
      forall c | c in rest ensures c.path != cs[0].path {
        var i :| 0 <= i < |rest| && rest[i] == c;
        assert CapacityKey(cs[0]) != CapacityKey(cs[i + 1]);
      }
      ResidualsLookup(rest);
    }
  }

  lemma {:induction false} UtilizationsLookup(es: seq<Evidence>)
    requires Unique(es, EvidenceKey)
    ensures forall e <- es :: e.path in UtilizationsOf(es) && UtilizationsOf(es)[e.path] == e.utilization
    ensures forall id <- UtilizationsOf(es) :: exists e <- es :: e.path == id
    decreases |es|
  {
    if es != [] {
      var rest := es[1..];
      assert forall e :: e in es <==> e == es[0] || e in rest;
      forall i, j | 0 <= i < j < |rest| ensures EvidenceKey(rest[i]) != EvidenceKey(rest[j]) {
        assert rest[i] == es[i + 1] && rest[j] == es[j + 1];
      }
      forall e | e in rest ensures e.path != es[0].path {
        var i :| 0 <= i < |rest| && rest[i] == e;
        assert EvidenceKey(es[0]) != EvidenceKey(es[i + 1]);
      }
      UtilizationsLookup(rest);
    }
  }

  lemma SameResiduals(a: seq<Capacity>, b: seq<Capacity>)
    requires Unique(a, CapacityKey) && Unique(b, CapacityKey) && multiset(a) == multiset(b)
    ensures ResidualsOf(a) == ResidualsOf(b)
  {
    hide Unique, ResidualsOf;
    SameMembers(a, b);
    ResidualsLookup(a);
    ResidualsLookup(b);
    var m, n := ResidualsOf(a), ResidualsOf(b);
    forall id | id in m ensures id in n && n[id] == m[id] {
      var c :| c in a && c.path == id;
    }
    forall id | id in n ensures id in m {
      var c :| c in b && c.path == id;
    }
  }

  lemma SameUtilizations(a: seq<Evidence>, b: seq<Evidence>)
    requires Unique(a, EvidenceKey) && Unique(b, EvidenceKey) && multiset(a) == multiset(b)
    ensures UtilizationsOf(a) == UtilizationsOf(b)
  {
    hide Unique, UtilizationsOf;
    SameMembers(a, b);
    UtilizationsLookup(a);
    UtilizationsLookup(b);
    var m, n := UtilizationsOf(a), UtilizationsOf(b);
    forall id | id in m ensures id in n && n[id] == m[id] {
      var e :| e in a && e.path == id;
    }
    forall id | id in n ensures id in m {
      var e :| e in b && e.path == id;
    }
  }

  /** Preparation forgets the order. */
  lemma SamePrepared(r: Request, s: Request)
    requires Permuted(r, s) && FactsUnique(r) && FactsUnique(s)
    ensures Prepare(r) == Prepare(s)
  {
    hide ShapesOf, Unique, ResidualsOf, UtilizationsOf;
    SameResiduals(r.capacities, s.capacities);
    SameUtilizations(r.evidences, s.evidences);
    SameMembers(r.occupied, s.occupied);
    SameMembers(r.policy.allowedTiers, s.policy.allowedTiers);
    SameMembers(r.policy.requiredLabels, s.policy.requiredLabels);
    SameMembers(r.policy.forbiddenLabels, s.policy.forbiddenLabels);
    SameMembers(r.policy.forbiddenLocalities, s.policy.forbiddenLocalities);
    SameMembers(r.policy.forbiddenDomains, s.policy.forbiddenDomains);
    SameMembers(r.policy.affinity, s.policy.affinity);
    SameEligible(r, s);
  }

  predicate FactsUnique(r: Request) {
    Unique(r.paths, PathKey) && Unique(r.capacities, CapacityKey) && Unique(r.evidences, EvidenceKey)
  }

  lemma SameEligible(r: Request, s: Request)
    requires Permuted(r, s)
    ensures Eligible(r) == Eligible(s)
  {
    PermutedBack(r, s);
    if Eligible(r) { EligibleEither(r, s); }
    if Eligible(s) { EligibleEither(s, r); }
  }

  lemma EligibleEither(r: Request, s: Request)
    requires Permuted(r, s) && Eligible(r)
    ensures Eligible(s)
  {
    hide ShapesOf;
    var p :| p in r.paths && p.id == r.incumbent.value.path;
    var p' := Counterpart(r, s, p);
  }

  lemma LegalEither(q: Prepared, r: Request, s: Request, e: Entry)
    requires Permuted(r, s) && EntryFrom(q, r.paths, e)
    ensures EntryFrom(q, s.paths, e)
  {
    hide Permuted, LegalAs, RouteOf;
    var p :| p in r.paths && LegalAs(q, RouteOf(p), e);
    var p' := Counterpart(r, s, p);
    SameRoute(p, p');
  }

  lemma ExcludedEither(q: Prepared, r: Request, s: Request, x: Exclusion)
    requires Permuted(r, s) && ExclusionFrom(q, r.paths, x)
    ensures ExclusionFrom(q, s.paths, x)
  {
    hide Permuted, ExcludedAs, RouteOf;
    var p :| p in r.paths && ExcludedAs(q, RouteOf(p), x);
    var p' := Counterpart(r, s, p);
    SameRoute(p, p');
  }

  lemma SameLegal(q: Prepared, r: Request, s: Request)
    requires Permuted(r, s)
    ensures forall e :: e in LegalEntries(q, r.paths) <==> e in LegalEntries(q, s.paths)
  {
    hide Permuted, EntryFrom, LegalEntries;
    PermutedBack(r, s);
    LegalMembers(q, r.paths);
    LegalMembers(q, s.paths);
    forall e ensures e in LegalEntries(q, r.paths) <==> e in LegalEntries(q, s.paths) {
      if EntryFrom(q, r.paths, e) { LegalEither(q, r, s, e); }
      if EntryFrom(q, s.paths, e) { LegalEither(q, s, r, e); }
    }
  }

  lemma SameExcluded(q: Prepared, r: Request, s: Request)
    requires Permuted(r, s)
    ensures forall x :: x in ExcludedPaths(q, r.paths) <==> x in ExcludedPaths(q, s.paths)
  {
    hide Permuted, ExclusionFrom, ExcludedPaths;
    PermutedBack(r, s);
    ExcludedMembers(q, r.paths);
    ExcludedMembers(q, s.paths);
    forall x ensures x in ExcludedPaths(q, r.paths) <==> x in ExcludedPaths(q, s.paths) {
      if ExclusionFrom(q, r.paths, x) { ExcludedEither(q, r, s, x); }
      if ExclusionFrom(q, s.paths, x) { ExcludedEither(q, s, r, x); }
    }
  }

  lemma EvaluateReason(q: Prepared, p: Route)
    ensures Evaluate(q, p).Excluded? ==> Evaluate(q, p).reason < REASONS
  {
  }

  function UnknownOf(legal: seq<Entry>): set<Entry> { set e <- legal | e.hasUnknown }

  lemma {:induction false} UnknownCounts(legal: seq<Entry>)
    requires forall i, j :: 0 <= i < j < |legal| ==> legal[i].route.id != legal[j].route.id
    ensures UnknownCount(legal) == |UnknownOf(legal)|
    decreases |legal|
  {
    if legal != [] {
      var init, last := legal[..|legal| - 1], legal[|legal| - 1];
      UnknownCounts(init);
      assert last !in init;
      assert forall e :: e in legal <==> e in init || e == last;
      assert UnknownOf(legal) == UnknownOf(init) + if last.hasUnknown then {last} else {};
    }
  }

  lemma UniqueSize(a: seq<Entry>, b: seq<Entry>)
    requires Comparable(a) && Comparable(b) && forall e :: e in a <==> e in b
    ensures |a| == |b| && UnknownCount(a) == UnknownCount(b) && LegalDomains(a) == LegalDomains(b) && Ranked(a) == Ranked(b)
  {
    hide Alike, Ranked, UnknownCount, RankLess;
    RankedMembers(a);
    RankedMembers(b);
    SameRanking(a, b);
    UnknownCounts(a);
    UnknownCounts(b);
    assert UnknownOf(a) == UnknownOf(b);
  }

  // ---- reordering keeps requests valid ---------------------------------------------------------------------

  function ShapeKey(h: Shape): nat { h.id }

  lemma ShapesUnique(paths: seq<Path>)
    ensures Unique(ShapesOf(paths), ShapeKey) <==> Unique(paths, PathKey)
    ensures |ShapesOf(paths)| == |paths|
  {
    ShapesAt(paths);
    hide ShapesOf;
    assert forall i :: 0 <= i < |paths| ==> ShapeKey(ShapesOf(paths)[i]) == PathKey(paths[i]);
  }

  lemma {:induction false} ShapesAt(paths: seq<Path>)
    ensures |ShapesOf(paths)| == |paths| && forall i :: 0 <= i < |paths| ==> ShapesOf(paths)[i] == ShapeOf(paths[i])
    decreases |paths|
  {
    hide ShapeOf;
    if paths != [] { ShapesAt(paths[1..]); }
  }

  lemma SamePathWellFormed(p: Path, p': Path, l: Limits)
    requires ShapeOf(p) == ShapeOf(p') && PathWellFormed(p, l)
    ensures PathWellFormed(p', l)
  {
    SameMembers(p.labels, p'.labels);
    SameMembers(p.reservations, p'.reservations);
    UniqueReordered(p.labels, p'.labels, Id);
    UniqueReordered(p.reservations, p'.reservations, RefKey);
  }

  lemma SameFacts(r: Request, s: Request, l: Limits)
    requires Permuted(r, s) && FactsWellFormed(r, l)
    ensures FactsWellFormed(s, l) && Domains(r.paths) == Domains(s.paths)
  {
    hide PathWellFormed, ShapeOf, Unique, ShapesOf;
    PermutedBack(r, s);
    ShapesUnique(r.paths);
    ShapesUnique(s.paths);
    UniqueReordered(ShapesOf(r.paths), ShapesOf(s.paths), ShapeKey);
    UniqueReordered(r.capacities, s.capacities, CapacityKey);
    UniqueReordered(r.evidences, s.evidences, EvidenceKey);
    SameMembers(ShapesOf(r.paths), ShapesOf(s.paths));
    SameMembers(r.capacities, s.capacities);
    SameMembers(r.evidences, s.evidences);
    SameMembers(r.occupied, s.occupied);
    forall p | p in s.paths ensures PathWellFormed(p, l) && p.domain in Domains(s.paths) + {0} && (p.domain != 0 ==> p.domain in Domains(r.paths)) {
      var p' := Counterpart(s, r, p);
      SamePathWellFormed(p', p, l);
      SameDomain(p, p');
    }
    forall p | p in r.paths && p.domain != 0 ensures p.domain in Domains(s.paths) {
      var p' := Counterpart(r, s, p);
      SameDomain(p, p');
    }
  }

  lemma SameDomain(p: Path, p': Path)
    requires ShapeOf(p) == ShapeOf(p')
    ensures p.domain == p'.domain
  {
  }

  lemma SamePolicy(p: Policy, q: Policy, l: Limits)
    requires WithoutLists(p) == WithoutLists(q) && PolicyWellFormed(p, l)
    requires multiset(p.allowedTiers) == multiset(q.allowedTiers) && multiset(p.affinity) == multiset(q.affinity)
    requires multiset(p.requiredLabels) == multiset(q.requiredLabels) && multiset(p.forbiddenLabels) == multiset(q.forbiddenLabels)
    requires multiset(p.forbiddenLocalities) == multiset(q.forbiddenLocalities)
    requires multiset(p.forbiddenDomains) == multiset(q.forbiddenDomains)
    ensures PolicyWellFormed(q, l)
  {
    hide Unique, RulesWellFormed;
    assert WithoutLists(p).rules == p.rules && WithoutLists(q).rules == q.rules;
    UniqueReordered(p.allowedTiers, q.allowedTiers, TierKey);
    UniqueReordered(p.requiredLabels, q.requiredLabels, Id);
    UniqueReordered(p.forbiddenLabels, q.forbiddenLabels, Id);
    UniqueReordered(p.forbiddenLocalities, q.forbiddenLocalities, Id);
    UniqueReordered(p.forbiddenDomains, q.forbiddenDomains, Id);
    SameMembers(p.allowedTiers, q.allowedTiers);
    SameMembers(p.requiredLabels, q.requiredLabels);
    SameMembers(p.forbiddenLabels, q.forbiddenLabels);
    SameMembers(p.forbiddenLocalities, q.forbiddenLocalities);
    SameMembers(p.forbiddenDomains, q.forbiddenDomains);
    SameMembers(p.affinity, q.affinity);
  }

  lemma SameGenerations(r: Request, s: Request)
    requires Permuted(r, s)
    ensures GenerationCode(r) == GenerationCode(s) && r.qos == s.qos && r.provenance == s.provenance && r.policy.rules == s.policy.rules
  {
    hide ShapesOf, IncumbentNamed;
    assert WithoutLists(r.policy).id == r.policy.id && WithoutLists(s.policy).id == s.policy.id;
    assert WithoutLists(r.policy).rules == r.policy.rules && WithoutLists(s.policy).rules == s.policy.rules;
    assert WithoutLists(r.policy).generation == r.policy.generation && WithoutLists(s.policy).generation == s.policy.generation;
  }

  /** A reordered request is valid when the request is. */
  lemma ReorderedIsValid(r: Request, s: Request, l: Limits)
    requires Permuted(r, s) && ValidateRequest(r, l) == OK
    ensures ValidateRequest(s, l) == OK
  {
    AcceptsExactly(r, l);
    AcceptsExactly(s, l);
    hide ValidateRequest, FactsWellFormed, PolicyWellFormed, GenerationCode, Domains, HeadroomMultiplier, ShapesOf;
    SameFacts(r, s, l);
    SamePolicy(r.policy, s.policy, l);
    SameGenerations(r, s);
  }

  // ---- reservations --------------------------------------------------------------------------------------------

  lemma {:induction false} OnlyMatch(refs: seq<Ref>, affinity: set<Ref>, ref: Ref)
    requires ref in refs && ref in affinity && forall x <- refs :: x in affinity ==> x == ref
    ensures FirstMatch(refs, affinity) == ref
    decreases |refs|
  {
    if refs[0] !in affinity { OnlyMatch(refs[1..], affinity, ref); }
  }

  lemma {:induction false} NoMatch(refs: seq<Ref>, affinity: set<Ref>)
    requires forall x <- refs :: x !in affinity
    ensures FirstMatch(refs, affinity) == NO_REF
    decreases |refs|
  {
    if refs != [] { NoMatch(refs[1..], affinity); }
  }

  lemma SameMatch(a: seq<Ref>, b: seq<Ref>, affinity: set<Ref>)
    requires (forall x :: x in a <==> x in b) && forall x <- a, y <- a :: x in affinity && y in affinity ==> x == y
    ensures FirstMatch(a, affinity) == FirstMatch(b, affinity)
  {
    if ref :| ref in a && ref in affinity {
      OnlyMatch(a, affinity, ref);
      OnlyMatch(b, affinity, ref);
    } else {
      NoMatch(a, affinity);
      NoMatch(b, affinity);
    }
  }

  lemma SameLowest(a: seq<Ref>, b: seq<Ref>)
    requires a != [] && b != [] && forall x :: x in a <==> x in b
    ensures LowestRef(a) == LowestRef(b)
  {
    LowestListed(a);
    LowestListed(b);
  }

  /** With one match at most, the reservation of a path does not depend on the order of its list. */
  lemma SameReservation(q: Prepared, a: seq<Ref>, b: seq<Ref>)
    requires multiset(a) == multiset(b) && forall x <- a, y <- a :: x in q.affinity && y in q.affinity ==> x == y
    ensures ReservationOf(q, a) == ReservationOf(q, b)
  {
    hide FirstMatch, LowestRef;
    SameMembers(a, b);
    SameMatch(a, b, q.affinity);
    if a != [] { SameLowest(a, b); }
  }

  // ---- the whole decision -----------------------------------------------------------------------------------------

  /** What the request contributes besides its candidates. */
  lemma SameScalars(r: Request, s: Request)
    requires Permuted(r, s)
    ensures AuthorityOf(r) == AuthorityOf(s) && StaleGeneration(r) == StaleGeneration(s) && |r.paths| == |s.paths|
    ensures r.incumbent == s.incumbent && r.policy.rules == s.policy.rules
    ensures forall q: Prepared, c: Route, ref: Ref :: IntentFor(r, q, c, ref) == IntentFor(s, q, c, ref)
  {
    ShapeMembers(r.paths);
    ShapeMembers(s.paths);
    SameMembers(ShapesOf(r.paths), ShapesOf(s.paths));
    assert WithoutLists(r.policy).rules == r.policy.rules && WithoutLists(s.policy).rules == s.policy.rules;
    assert WithoutLists(r.policy).id == r.policy.id && WithoutLists(s.policy).id == s.policy.id;
    assert WithoutLists(r.policy).generation == r.policy.generation && WithoutLists(s.policy).generation == s.policy.generation;
  }

  /** The intent of a decision with another reservation. */
  function Reserved(d: Decision, ref: Ref): Decision {
    if d.intent.None? then d
    else d.(intent := Some(d.intent.value.(reservation := ref.id, reservationGeneration := ref.generation)))
  }

  /** The reservation that the path of an intent gets from the way a request lists it. */
  function ReservationIn(r: Request, q: Prepared, d: Decision): Ref {
    if d.intent.None? then NO_REF else ReservationOf(q, ReservationsAt(r.paths, d.intent.value.path))
  }

  /** The intent this request yields for an entry. */
  function IntentIn(r: Request, q: Prepared, e: Entry): Intent {
    IntentFor(r, q, e.route, ReservationOf(q, ReservationsAt(r.paths, e.route.id)))
  }

  /** Either request yields a verified intent for this entry. */
  predicate BothVerify(r: Request, s: Request, l: Limits, q: Prepared, e: Entry) {
    hide *;
    VerifyIntent(r, l, IntentIn(r, q, e)) && VerifyIntent(s, l, IntentIn(s, q, e))
  }

  lemma EitherVerifies(r: Request, s: Request, l: Limits, q: Prepared, e: Entry)
    requires Permuted(r, s) && ValidateRequest(r, l) == OK && ValidateRequest(s, l) == OK
    requires Prepare(s) == Prepare(r) == q && e in LegalEntries(q, r.paths)
    ensures BothVerify(r, s, l, q, e)
  {
    hide ValidateRequest, Permuted, VerifyIntent, ReservationOf, ReservationsAt, IntentFor, LegalEntries, Prepare;
    SameLegal(q, r, s);
    ChosenVerifies(r, l, e);
    ChosenVerifies(s, l, e);
  }

  lemma SameAdmit(r: Request, s: Request, l: Limits, q: Prepared, d: Decision, e: Entry)
    requires AuthorityOf(r) == AuthorityOf(s) && d.intent.None? && BothVerify(r, s, l, q, e)
    requires forall c: Route, ref: Ref :: IntentFor(r, q, c, ref) == IntentFor(s, q, c, ref)
    ensures var a, b := ReservationOf(q, ReservationsAt(r.paths, e.route.id)), ReservationOf(q, ReservationsAt(s.paths, e.route.id));
            var admitted := Admit(r, l, q, d, e, a);
            Admit(s, l, q, d, e, b) == Reserved(admitted, b) && (admitted.intent.None? || PlacesOn(admitted, e.route.id))
  {
    hide VerifyIntent, Flagged, AddBinding, AddNote, AuthorityOf, IntentFor, ReservationOf, ReservationsAt;
    var a, b := ReservationOf(q, ReservationsAt(r.paths, e.route.id)), ReservationOf(q, ReservationsAt(s.paths, e.route.id));
    OtherReservation(r, q, e.route, a, b);
  }

  lemma OtherReservation(r: Request, q: Prepared, c: Route, a: Ref, b: Ref)
    ensures IntentFor(r, q, c, b) == IntentFor(r, q, c, a).(reservation := b.id, reservationGeneration := b.generation)
    ensures IntentFor(r, q, c, a).path == c.id
  {
  }

  lemma SameConclusion(r: Request, s: Request, l: Limits, q: Prepared, d: Decision, ranked: seq<Entry>)
    requires r.incumbent == s.incumbent && AuthorityOf(r) == AuthorityOf(s) && d.intent.None?
    requires forall c: Route, ref: Ref :: IntentFor(r, q, c, ref) == IntentFor(s, q, c, ref)
    requires forall e <- ranked :: BothVerify(r, s, l, q, e)
    ensures Conclude(s, l, q, d, ranked) == Reserved(Conclude(r, l, q, d, ranked), ReservationIn(s, q, Conclude(r, l, q, d, ranked)))
  {
    hide BothVerify, AddBinding, AddNote, IntentFor, AuthorityOf, ReservationsAt, ReservationOf, WithRanking, IndexOf, ChosenIndex,
         Admit, Beats;
    if ranked != [] {
      var chosen := ranked[ChosenIndex(q, ranked)];
      assert chosen in ranked && BothVerify(r, s, l, q, chosen);
      var e := ChurnExplained(r, q, ranked, WithRanking(d.explanation, ranked, l.maxRanked));
      assert e == ChurnExplained(s, q, ranked, WithRanking(d.explanation, ranked, l.maxRanked));
      SameAdmit(r, s, l, q, d.(explanation := e), chosen);
    }
  }

  lemma SameSurvey(r: Request, s: Request, l: Limits, q: Prepared, a: seq<Entry>, b: seq<Entry>, x: Record)
    requires Comparable(a) && Comparable(b) && (forall e :: e in a <==> e in b)
    requires r.incumbent == s.incumbent && AuthorityOf(r) == AuthorityOf(s) && |r.paths| == |s.paths|
    requires forall c: Route, ref: Ref :: IntentFor(r, q, c, ref) == IntentFor(s, q, c, ref)
    requires forall e <- a :: BothVerify(r, s, l, q, e)
    ensures Survey(s, l, q, b, x) == Reserved(Survey(r, l, q, a, x), ReservationIn(s, q, Survey(r, l, q, a, x)))
  {
    hide BothVerify, AuthorityOf, Comparable, Ranked, Conclude, IntentFor, UnknownCount, LegalDomains, AddNote, AddBinding,
         SummariesFrom, DominantOf, Classify, ReservationIn;
    UniqueSize(a, b);
    assert Surveyed(r, q, a, x) == Surveyed(s, q, b, x);
    if a != [] {
      RankedMembers(a);
      RankedMembers(b);
      var d := Decision(NoLegalPath, OK, OK, None, AuthorityOf(r), RelationOf(q), Surveyed(r, q, a, x));
      SameConclusion(r, s, l, q, d, Ranked(a));
    }
  }

  function RecordOf(r: Request, l: Limits): Record {
    Recorded(ExcludedPaths(Prepare(r), r.paths), l.maxReasons, l.maxSamples)
  }

  /**
   Where the recorder ends with the same record, a reordered request gets the same decision in full, but
   for the reservation its own list gives to the path of the intent.
   */
  lemma Reordered(r: Request, s: Request, l: Limits)
    requires Permuted(r, s) && ValidateRequest(r, l) == OK && RecordOf(r, l) == RecordOf(s, l)
    ensures Prepare(s) == Prepare(r)
    ensures Decide(s, l) == Reserved(Decide(r, l), ReservationIn(s, Prepare(r), Decide(r, l)))
  {
    ReorderedIsValid(r, s, l);
    hide ValidateRequest, Permuted, AddNote, Survey, AuthorityOf, StaleGeneration, LegalEntries, ExcludedPaths, Recorded, Comparable,
         IntentFor, BothVerify, Prepare, FactsUnique, ReservationIn;
    SameScalars(r, s);
    ValidFacts(r, l);
    ValidFacts(s, l);
    SamePrepared(r, s);
    var q := Prepare(r);
    NeverOverflows(r, l);
    if StaleGeneration(r) == OK {
      SameLegal(q, r, s);
      LegalComparable(q, r.paths);
      LegalComparable(q, s.paths);
      forall e | e in LegalEntries(q, r.paths) ensures BothVerify(r, s, l, q, e) {
        EitherVerifies(r, s, l, q, e);
      }
      SameSurvey(r, s, l, q, LegalEntries(q, r.paths), LegalEntries(q, s.paths), RecordOf(r, l));
    }
  }

  lemma ValidFacts(r: Request, l: Limits)
    requires ValidateRequest(r, l) == OK
    ensures FactsUnique(r) && Unique(r.paths, PathKey)
  {
    hide ValidateRequest, PolicyWellFormed, GenerationCode, Domains, Unique;
    AcceptsExactly(r, l);
  }

  // ---- exactly when the order shows ----------------------------------------------------------------------------

  /** The recorder has room for the reasons that exclude candidates of this request. */
  predicate ReasonsFit(r: Request, l: Limits) {
    Fits(ExcludedPaths(Prepare(r), r.paths), l.maxReasons)
  }

  /** The list holds one of the policy's reservations at most. */
  predicate SingleMatch(refs: seq<Ref>, affinity: set<Ref>) {
    forall a <- refs, b <- refs :: a in affinity && b in affinity ==> a == b
  }

  /** The path of the candidate that is chosen, if one is, carries one of the reservations the policy lists at most. */
  predicate ChoiceSingle(r: Request) {
    forall e <- LegalEntries(Prepare(r), r.paths), p <- r.paths | Elected(r, e) && p.id == e.route.id ::
      SingleMatch(p.reservations, Prepare(r).affinity)
  }

  /** For a valid, current request that is to say the path of the intent, if there is one. */
  lemma SingleOnPath(r: Request, l: Limits, p: Path)
    requires ValidateRequest(r, l) == OK && StaleGeneration(r) == OK && ChoiceSingle(r)
    requires p in r.paths && PlacesOn(Decide(r, l), p.id)
    ensures SingleMatch(p.reservations, Prepare(r).affinity)
  {
    hide ValidateRequest, StaleGeneration, LegalEntries, Prepare, Elected, Decide, SingleMatch, PlacesOn;
    PlacesExactly(r, l, p.id);
  }

  lemma DoublePath(r: Request, l: Limits) returns (p: Path)
    requires ValidateRequest(r, l) == OK && StaleGeneration(r) == OK && !ChoiceSingle(r)
    ensures p in r.paths && PlacesOn(Decide(r, l), p.id) && !SingleMatch(p.reservations, Prepare(r).affinity)
  {
    hide ValidateRequest, StaleGeneration, LegalEntries, Prepare, Elected, Decide, SingleMatch, PlacesOn;
    var e: Entry, p0: Path :| e in LegalEntries(Prepare(r), r.paths) && p0 in r.paths && Elected(r, e) && p0.id == e.route.id
                              && !SingleMatch(p0.reservations, Prepare(r).affinity);
    p := p0;
    PlacesExactly(r, l, p.id);
  }

  lemma SameRecordOf(r: Request, s: Request, l: Limits)
    requires Permuted(r, s) && ValidateRequest(r, l) == OK && ReasonsFit(r, l)
    ensures RecordOf(r, l) == RecordOf(s, l)
  {
    ReorderedIsValid(r, s, l);
    hide ValidateRequest, Permuted, ExcludedPaths, Recorded, Unique, ReasonsOf, Prepare, FactsUnique;
    ValidFacts(r, l);
    ValidFacts(s, l);
    SamePrepared(r, s);
    var q := Prepare(r);
    var xs, ys := ExcludedPaths(q, r.paths), ExcludedPaths(q, s.paths);
    SameExcluded(q, r, s);
    ExcludedDistinct(q, r.paths);
    ExcludedDistinct(q, s.paths);
    if l.maxReasons == 0 {
      NothingKept(xs, l.maxSamples);
      NothingKept(ys, l.maxSamples);
      if xs != [] { assert xs[0] in ys; }
      if ys != [] { assert ys[0] in xs; }
    } else {
      SameRecord(xs, ys, l.maxReasons, l.maxSamples);
    }
  }

  /** With room for the reasons and one match at most on the chosen path, every order gets the same decision. */
  lemma OrderNeverShows(r: Request, s: Request, l: Limits)
    requires Permuted(r, s) && ValidateRequest(r, l) == OK && StaleGeneration(r) == OK && ReasonsFit(r, l) && ChoiceSingle(r)
    ensures Decide(s, l) == Decide(r, l)
  {
    hide ValidateRequest, Permuted, Decide, Prepare, RecordOf, ReservationsAt, ReservationOf, ReasonsFit, ShapesOf, ChoiceSingle,
         StaleGeneration;
    SameRecordOf(r, s, l);
    Reordered(r, s, l);
    SelfPermuted(r);
    Reordered(r, r, l);
    var d := Decide(r, l);
    if d.intent.Some? {
      var p := PlacedListed(r, l);
      var p' := Counterpart(r, s, p);
      SameRoute(p, p');
      ReorderedIsValid(r, s, l);
      ListedAt(s, l, p');
      ListedAt(r, l, p);
      SingleOnPath(r, l, p);
      SameReservation(Prepare(r), p.reservations, p'.reservations);
    }
  }

  lemma SelfPermuted(r: Request)
    ensures Permuted(r, r)
  {
  }

  /** A path of a valid request is found under its id. */
  lemma ListedAt(r: Request, l: Limits, p: Path)
    requires ValidateRequest(r, l) == OK && p in r.paths
    ensures ReservationsAt(r.paths, p.id) == p.reservations
  {
    hide ValidateRequest, FindPath;
    ValidFacts(r, l);
    FindsPath(r.paths, p);
  }

  /** The path of an intent is one of the request's. */
  lemma PlacedListed(r: Request, l: Limits) returns (p: Path)
    requires ValidateRequest(r, l) == OK && Decide(r, l).intent.Some?
    ensures p in r.paths && PlacesOn(Decide(r, l), p.id)
  {
    hide ValidateRequest, Decide, VerifyIntent;
    IntentsVerify(r, l);
    p := VerifiedPath(r, l, Decide(r, l).intent.value);
  }

  lemma VerifiedPath(r: Request, l: Limits, i: Intent) returns (p: Path)
    requires VerifyIntent(r, l, i)
    ensures p in r.paths && p.id == i.path
  {
    hide ValidateRequest, Evaluate, Prepare;
    FoundListed(r.paths, i.path);
    p := FindPath(r.paths, i.path).value;
  }

  lemma {:induction false} FoundListed(paths: seq<Path>, id: u64)
    ensures forall p :: FindPath(paths, id) == Some(p) ==> p in paths && p.id == id
    decreases |paths|
  {
    if paths != [] && paths[0].id != id { FoundListed(paths[1..], id); }
  }

  // ---- an order that shows: the reasons ------------------------------------------------------------------------

  lemma {:induction false} ShapesAppend(a: seq<Path>, b: seq<Path>)
    ensures ShapesOf(a + b) == ShapesOf(a) + ShapesOf(b)
    decreases |a|
  {
    hide ShapeOf;
    if a == [] {
      assert a + b == b;
    } else {
      assert (a + b)[0] == a[0] && (a + b)[1..] == a[1..] + b;
      ShapesAppend(a[1..], b);
    }
  }

  lemma FrontedShapes(paths: seq<Path>, i: nat)
    requires i < |paths|
    ensures multiset(ShapesOf(Fronted(paths, i))) == multiset(ShapesOf(paths))
  {
    hide ShapeOf, ShapesOf, Fronted;
    FrontedParts(paths, i);
    SwappedShapes(paths[..i], [paths[i]], paths[i + 1..]);
  }

  lemma SwappedShapes(a: seq<Path>, b: seq<Path>, c: seq<Path>)
    ensures multiset(ShapesOf(b + (a + c))) == multiset(ShapesOf(a + (b + c)))
  {
    hide ShapeOf, ShapesOf;
    ShapesAppend(a, b + c);
    ShapesAppend(b, c);
    ShapesAppend(b, a + c);
    ShapesAppend(a, c);
  }

  lemma OtherPaths(r: Request, paths: seq<Path>)
    requires multiset(ShapesOf(paths)) == multiset(ShapesOf(r.paths))
    ensures Permuted(r, r.(paths := paths))
  {
    hide ShapesOf;
  }

  lemma {:induction false} FirstExcluded(q: Prepared, paths: seq<Path>, x: Exclusion)
    requires paths != [] && ExcludedAs(q, RouteOf(paths[0]), x)
    ensures ExcludedPaths(q, paths) != [] && ExcludedPaths(q, paths)[0] == x
    decreases |paths|
  {
    hide Evaluate, RouteOf;
    if |paths| == 1 {
      assert paths[..0] == [];
    } else {
      FirstExcluded(q, paths[..|paths| - 1], x);
    }
  }

  lemma {:induction false} SummariesTell(x: Record, from: nat, reason: u8)
    requires from <= 18
    ensures (exists s <- SummariesFrom(x, from) :: s.reason == reason) <==> from <= reason < 18 && reason in x.entries
    decreases 18 - from
  {
    if from < 18 {
      SummariesTell(x, from + 1, reason);
      var all, rest := SummariesFrom(x, from), SummariesFrom(x, from + 1);
      if from in x.entries {
        var head := Summary(from, x.entries[from].count, x.entries[from].sample);
        assert all == [head] + rest && all[0] == head;
        assert forall y :: y in all <==> y == head || y in rest;
      } else {
        assert all == rest;
      }
    }
  }

  lemma AdmitKeepsExclusions(r: Request, l: Limits, q: Prepared, d: Decision, e: Entry, ref: Ref)
    ensures Admit(r, l, q, d, e, ref).explanation.exclusions == d.explanation.exclusions
  {
    hide VerifyIntent, IntentFor, AuthorityOf, Flagged;
    forall x: Explanation ensures Flagged(q, e, x).exclusions == x.exclusions { FlaggedKeepsExclusions(q, e, x); }
  }

  lemma FlaggedKeepsExclusions(q: Prepared, e: Entry, x: Explanation)
    ensures Flagged(q, e, x).exclusions == x.exclusions
  {
  }

  lemma ConcludeKeepsExclusions(r: Request, l: Limits, q: Prepared, d: Decision, ranked: seq<Entry>)
    ensures Conclude(r, l, q, d, ranked).explanation.exclusions == d.explanation.exclusions
  {
    hide Admit, ReservationsAt, ReservationOf, IndexOf, ChosenIndex, Beats, RankedOf;
    if ranked != [] {
      var chosen := ranked[ChosenIndex(q, ranked)];
      var d1 := d.(explanation := ChurnExplained(r, q, ranked, WithRanking(d.explanation, ranked, l.maxRanked)));
      AdmitKeepsExclusions(r, l, q, d1, chosen, ReservationOf(q, ReservationsAt(r.paths, chosen.route.id)));
    }
  }

  /** Every decision past the generation checks lists the recorded exclusions. */
  lemma ExclusionsTold(r: Request, l: Limits)
    requires ValidateRequest(r, l) == OK && StaleGeneration(r) == OK
    ensures Decide(r, l).explanation.exclusions == AllSummaries(RecordOf(r, l))
  {
    hide ValidateRequest, Prepare, LegalEntries, ExcludedPaths, Recorded, Conclude, Ranked, SummariesFrom, Decide, StaleGeneration,
         Classify, DominantOf, Surveyed;
    var q := Prepare(r);
    var legal, x := LegalEntries(q, r.paths), RecordOf(r, l);
    DecidesBySurvey(r, l);
    SurveyedExclusions(r, q, legal, x);
    var d := Decision(NoLegalPath, OK, OK, None, AuthorityOf(r), RelationOf(q), Surveyed(r, q, legal, x));
    ConcludeKeepsExclusions(r, l, q, d, Ranked(legal));
  }

  function AllSummaries(x: Record): seq<Summary> { SummariesFrom(x, 0) }

  lemma SurveyedExclusions(r: Request, q: Prepared, legal: seq<Entry>, x: Record)
    ensures Surveyed(r, q, legal, x).exclusions == AllSummaries(x)
  {
    hide SummariesFrom, UnknownCount, LegalDomains;
  }

  /** With more reasons than room, some order of the candidates shows in the exclusions. */
  lemma ReasonsShow(r: Request, l: Limits) returns (s: Request)
    requires ValidateRequest(r, l) == OK && StaleGeneration(r) == OK && !ReasonsFit(r, l)
    ensures Permuted(r, s) && Decide(s, l) != Decide(r, l)
  {
    hide ValidateRequest, Prepare, ExcludedPaths, Recorded, Decide, SummariesFrom, StaleGeneration, ShapesOf, RouteOf, ReasonsOf,
         FactsUnique, Evaluate;
    var q := Prepare(r);
    var xs := ExcludedPaths(q, r.paths);
    var n := SomeReasonDropped(xs, l.maxReasons, l.maxSamples);
    var x := xs[n];
    ExcludedMembers(q, r.paths);
    assert ExclusionFrom(q, r.paths, x);
    var p :| p in r.paths && ExcludedAs(q, RouteOf(p), x);
    var i :| 0 <= i < |r.paths| && r.paths[i] == p;
    EvaluateReason(q, RouteOf(p));
    FrontedShapes(r.paths, i);
    s := r.(paths := Fronted(r.paths, i));
    OtherPaths(r, s.paths);
    ShownFirst(r, s, l, x);
  }

  /** This request lists a candidate first that is excluded for this. */
  predicate FirstIs(q: Prepared, paths: seq<Path>, x: Exclusion) {
    paths != [] && ExcludedAs(q, RouteOf(paths[0]), x)
  }

  lemma ShownFirst(r: Request, s: Request, l: Limits, x: Exclusion)
    requires Permuted(r, s) && ValidateRequest(r, l) == OK && StaleGeneration(r) == OK && l.maxReasons > 0
    requires x.reason < REASONS && x.reason !in RecordOf(r, l).entries && FirstIs(Prepare(r), s.paths, x)
    ensures Decide(s, l) != Decide(r, l)
  {
    hide ValidateRequest, Prepare, ExcludedPaths, Recorded, Decide, SummariesFrom, StaleGeneration, ShapesOf, RouteOf, Evaluate,
         FactsUnique, Permuted;
    ReorderedIsValid(r, s, l);
    ValidFacts(r, l);
    ValidFacts(s, l);
    SamePrepared(r, s);
    SameScalars(r, s);
    FirstExcluded(Prepare(s), s.paths, x);
    KeptReasons(ExcludedPaths(Prepare(s), s.paths), l.maxReasons, l.maxSamples);
    ExclusionsTold(r, l);
    ExclusionsTold(s, l);
    SummariesTell(RecordOf(r, l), 0, x.reason);
    SummariesTell(RecordOf(s, l), 0, x.reason);
  }

  // ---- an order that shows: the reservation ---------------------------------------------------------------------

  lemma FirstIsMatch(q: Prepared, refs: seq<Ref>)
    requires refs != [] && refs[0] in q.affinity && RefValid(refs[0])
    ensures ReservationOf(q, refs) == refs[0]
  {
  }

  lemma {:induction false} SomeMatch(refs: seq<Ref>, affinity: set<Ref>, a: Ref)
    requires a in refs && a in affinity
    ensures FirstMatch(refs, affinity) in refs && FirstMatch(refs, affinity) in affinity
    decreases |refs|
  {
    if refs[0] !in affinity {
      assert a in refs[1..];
      SomeMatch(refs[1..], affinity, a);
    }
  }

  lemma MatchTaken(q: Prepared, refs: seq<Ref>, a: Ref)
    requires a in refs && a in q.affinity && forall ref <- refs :: RefValid(ref)
    ensures ReservationOf(q, refs) in refs && ReservationOf(q, refs) in q.affinity
  {
    hide FirstMatch, LowestRef;
    SomeMatch(refs, q.affinity, a);
  }

  lemma {:induction false} ShapesPut(paths: seq<Path>, i: nat, p: Path)
    requires i < |paths| && ShapeOf(p) == ShapeOf(paths[i])
    ensures ShapesOf(paths[i := p]) == ShapesOf(paths)
    decreases |paths|
  {
    hide ShapeOf;
    if i > 0 {
      assert paths[i := p][1..] == paths[1..][i - 1 := p];
      ShapesPut(paths[1..], i - 1, p);
    } else {
      assert paths[i := p][1..] == paths[1..];
    }
  }

  /** With two matches on the chosen path, some order of its reservations shows in the intent. */
  lemma ReservationShows(r: Request, l: Limits) returns (s: Request)
    requires ValidateRequest(r, l) == OK && StaleGeneration(r) == OK && ReasonsFit(r, l) && !ChoiceSingle(r)
    ensures Permuted(r, s) && Decide(s, l) != Decide(r, l)
  {
    hide ValidateRequest, Prepare, Decide, ReservationOf, ShapesOf, ReasonsFit, RecordOf, ChoiceSingle, PlacesOn, StaleGeneration;
    var q := Prepare(r);
    var p := DoublePath(r, l);
    var a, b :| a in p.reservations && b in p.reservations && a in q.affinity && b in q.affinity && a != b;
    ValidRefs(r, l, p);
    MatchTaken(q, p.reservations, a);
    var m := ReservationOf(q, p.reservations);
    var other := if m == a then b else a;
    var k :| 0 <= k < |p.reservations| && p.reservations[k] == other;
    var p' := p.(reservations := Fronted(p.reservations, k));
    FrontedSame(p.reservations, k);
    var i :| 0 <= i < |r.paths| && r.paths[i] == p;
    ShapesPut(r.paths, i, p');
    s := r.(paths := r.paths[i := p']);
    OtherPaths(r, s.paths);
    assert s.paths[i] == p';
    ShownInIntent(r, s, l, p, p', other);
  }

  lemma ValidRefs(r: Request, l: Limits, p: Path)
    requires ValidateRequest(r, l) == OK && p in r.paths
    ensures forall ref <- p.reservations :: RefValid(ref)
  {
    hide ValidateRequest, PolicyWellFormed, GenerationCode, Domains, Unique;
    AcceptsExactly(r, l);
  }

  lemma ShownInIntent(r: Request, s: Request, l: Limits, p: Path, p': Path, first: Ref)
    requires Permuted(r, s) && ValidateRequest(r, l) == OK && ReasonsFit(r, l) && PlacesOn(Decide(r, l), p.id)
    requires p in r.paths && p' in s.paths && p.id == p'.id && [first] <= p'.reservations
    requires first in Prepare(r).affinity && RefValid(first) && ReservationOf(Prepare(r), p.reservations) != first
    ensures Decide(s, l) != Decide(r, l)
  {
    hide ValidateRequest, Prepare, Decide, ReservationsAt, ReservationOf, ShapesOf, ReasonsFit, RecordOf, Permuted;
    ReorderedIsValid(r, s, l);
    ListedAt(r, l, p);
    ListedAt(s, l, p');
    FirstIsMatch(Prepare(r), p'.reservations);
    SameRecordOf(r, s, l);
    Reordered(r, s, l);
    SelfPermuted(r);
    Reordered(r, r, l);
  }

  /**
   Exactly when the decision on a valid request depends on nothing but what the request lists: when its
   generations are stale, or when the recorder has room for every reason that excludes a candidate (or for
   none) and no path was chosen, or one with one listed reservation at most.
   */
  lemma OrderShowsExactly(r: Request, l: Limits)
    requires ValidateRequest(r, l) == OK
    ensures (forall s: Request | Permuted(r, s) :: Decide(s, l) == Decide(r, l))
              <==> StaleGeneration(r) != OK || (ReasonsFit(r, l) && ChoiceSingle(r))
  {
    hide ValidateRequest, Permuted, Decide, ReasonsFit, ChoiceSingle, StaleGeneration;
    if StaleGeneration(r) != OK {
      forall s: Request | Permuted(r, s) ensures Decide(s, l) == Decide(r, l) { StaleSame(r, s, l); }
    } else if !ReasonsFit(r, l) {
      var s := ReasonsShow(r, l);
    } else if !ChoiceSingle(r) {
      var s := ReservationShows(r, l);
    } else {
      forall s: Request | Permuted(r, s) ensures Decide(s, l) == Decide(r, l) { OrderNeverShows(r, s, l); }
    }
  }

  lemma StaleSame(r: Request, s: Request, l: Limits)
    requires Permuted(r, s) && ValidateRequest(r, l) == OK && StaleGeneration(r) != OK
    ensures Decide(s, l) == Decide(r, l)
  {
    hide ValidateRequest, Permuted, Prepare, AuthorityOf, StaleGeneration;
    ReorderedIsValid(r, s, l);
    SameScalars(r, s);
  }

  // ---- an input for either cause ------------------------------------------------------------------------------------

  const RULES := Rules([Objective(COST, MINIMIZE)], None, None, None, false, 0, false, 0, 0, false, 0, 0, false, 0, 0, 0, 0, 0)
  const POLICY := Policy(1, 1, RULES, [0], [], [], [], [], [Ref(1, 1), Ref(2, 1)])
  const LIMITS := Limits(16, 16, 16, 16, 16, 16, 16, 16, 16, 16, 16, 1)

  /** A request for one unit over these candidates, of which path 1 has ten to spare. */
  function Asking(paths: seq<Path>): Request {
    Request(Name(1, 1), Name(1, 1), paths, Name(1, 1), [Capacity(1, 10, 10)], Qos(1, 1, 0, 0, 1, 0), POLICY, Name(0, 0), [], None, [],
            Expected(1, 1, 1, 1, 1, 1, 0), Provenance([], [], 0, 0), 1)
  }

  lemma AskingIsValid(paths: seq<Path>)
    requires |paths| <= 16 && (forall p <- paths :: PathWellFormed(p, LIMITS)) && Unique(paths, PathKey)
    ensures ValidateRequest(Asking(paths), LIMITS) == OK && StaleGeneration(Asking(paths)) == OK
  {
    hide ValidateRequest, PathWellFormed, Domains;
    AcceptsExactly(Asking(paths), LIMITS);
    assert PolicyWellFormed(POLICY, LIMITS);
  }

  /** Path 9 has a stale authority, path 8 a tier that is not allowed. */
  const STALE := Path(9, 2, 0, 0, 0, 0, 1, 1, 1, [], [])
  const WRONG_TIER := Path(8, 1, 1, 0, 0, 0, 1, 1, 1, [], [])

  /** A recorder with room for one reason tells the first candidate's. */
  lemma ReasonOrderExample()
    ensures var r, s := Asking([STALE, WRONG_TIER]), Asking([WRONG_TIER, STALE]);
            Permuted(r, s) && ValidateRequest(r, LIMITS) == OK && Decide(s, LIMITS) != Decide(r, LIMITS)
  {
    hide Decide, ValidateRequest, Prepare, RecordOf;
    var r, s := Asking([STALE, WRONG_TIER]), Asking([WRONG_TIER, STALE]);
    var x, y := Exclusion(PATH_AUTHORITY_STALE, 0, 0, 9), Exclusion(TIER_NOT_ALLOWED, 0, 0, 8);
    AskingIsValid(r.paths);
    OtherPaths(r, s.paths);
    TierExcluded(Prepare(r));
    PreparedAsking(r.paths);
    FirstExcluded(Prepare(r), r.paths, x);
    OnlyFirstKept(ExcludedPaths(Prepare(r), r.paths), y.reason);
    assert y.reason !in RecordOf(r, LIMITS).entries by { RecordUnfolds(r, LIMITS); }
    ShownFirst(r, s, LIMITS, y);
  }

  lemma RecordUnfolds(r: Request, l: Limits)
    ensures RecordOf(r, l) == Recorded(ExcludedPaths(Prepare(r), r.paths), l.maxReasons, l.maxSamples)
  {
  }

  lemma OnlyFirstKept(xs: seq<Exclusion>, other: u8)
    requires xs != [] && other != xs[0].reason
    ensures other !in Recorded(xs, 1, 16).entries
  {
    hide Recorded;
    KeptReasons(xs, 1, 16);
    var kept := Recorded(xs, 1, 16).entries;
    assert |kept.Keys| == |kept|;
    if other in kept { SubsetFewer({other, xs[0].reason}, kept.Keys); }
  }

  lemma PreparedAsking(paths: seq<Path>)
    ensures var q := Prepare(Asking(paths));
            && q.expected.path == 1 && q.tiers == {0} && q.rules == RULES && q.qos == Qos(1, 1, 0, 0, 1, 0)
            && q.affinity == {Ref(1, 1), Ref(2, 1)} && q.requiredLabels == {} && q.forbiddenLabels == {}
            && q.forbiddenLocalities == {} && q.forbiddenDomains == {} && q.residuals == map[1 := 10]
            && !q.congestionUsed && q.incumbentPath.None? && q.requiredBase == q.requiredHeadroom == 1
  {
    assert [Capacity(1, 10, 10)][1..] == [];
  }

  lemma TierExcluded(q: Prepared)
    ensures q.expected.path == 1 && q.tiers == {0} ==> ExcludedAs(q, RouteOf(WRONG_TIER), Exclusion(TIER_NOT_ALLOWED, 0, 0, 8))
  {
  }

  const UPWARDS := [Ref(1, 1), Ref(2, 1)]
  const DOWNWARDS := [Ref(2, 1), Ref(1, 1)]

  function Reserving(refs: seq<Ref>): Path { Path(1, 1, 0, 0, 0, 0, 1, 1, 1, [], refs) }

  lemma ReservingLegal(q: Prepared, refs: seq<Ref>)
    requires q.expected.path == 1 && q.tiers == {0} && q.rules == RULES && q.qos == Qos(1, 1, 0, 0, 1, 0)
    requires q.requiredLabels == {} && q.forbiddenLabels == {} && q.forbiddenLocalities == {} && q.forbiddenDomains == {}
    requires q.residuals == map[1 := 10] && !q.congestionUsed && q.requiredBase == q.requiredHeadroom == 1
    ensures Evaluate(q, RouteOf(Reserving(refs))).Legal?
  {
  }

  /** A single legal candidate is placed when there is no incumbent, no diversity and no headroom to ask for. */
  lemma OnlyCandidatePlaced(r: Request, l: Limits, p: Path)
    requires ValidateRequest(r, l) == OK && StaleGeneration(r) == OK && r.paths == [p]
    requires Evaluate(Prepare(r), RouteOf(p)).Legal? && r.incumbent.None?
    requires r.policy.rules.minDistinct == 0 && r.policy.rules.minHeadroom == 0
    ensures PlacesOn(Decide(r, l), p.id)
  {
    hide ValidateRequest, StaleGeneration, Evaluate, RouteOf, Prepare, LegalEntries, Decide, EntryOf, Elected;
    var q := Prepare(r);
    LegalHasResidual(q, RouteOf(p));
    var e := EntryOf(q, Evaluate(q, RouteOf(p)), RouteOf(p));
    SingleLegal(q, p, e);
    EntryRoute(q, RouteOf(p), e);
    RouteId(p);
    SingleElected(r, e);
    PlacesExactly(r, l, p.id);
  }

  lemma SingleElected(r: Request, e: Entry)
    requires LegalEntries(Prepare(r), r.paths) == [e] && r.incumbent.None?
    requires r.policy.rules.minDistinct == 0 && r.policy.rules.minHeadroom == 0
    ensures Elected(r, e)
  {
    hide LegalEntries, RankLess;
    assert forall x :: x in [e] <==> x == e;
  }

  lemma SingleLegal(q: Prepared, p: Path, e: Entry)
    requires LegalAs(q, RouteOf(p), e)
    ensures LegalEntries(q, [p]) == [e]
  {
    hide Evaluate, RouteOf, EntryOf;
    assert [p][..0] == [];
  }

  /** The intent takes whichever of two listed reservations comes first. */
  lemma ReservationOrderExample()
    ensures var r, s := Asking([Reserving(UPWARDS)]), Asking([Reserving(DOWNWARDS)]);
            Permuted(r, s) && ValidateRequest(r, LIMITS) == OK && Decide(s, LIMITS) != Decide(r, LIMITS)
  {
    hide Decide, ValidateRequest, Prepare, Evaluate, RecordOf, ShapesOf, PlacesOn;
    var a, b := UPWARDS, DOWNWARDS;
    var p, p' := Reserving(a), Reserving(b);
    var r, s := Asking([p]), Asking([p']);
    AskingIsValid([p]);
    PreparedAsking([p]);
    ReservingLegal(Prepare(r), a);
    OnlyCandidatePlaced(r, LIMITS, p);
    assert multiset(a) == multiset(b);
    ShapesPut([p], 0, p');
    assert [p][0 := p'] == [p'];
    OtherPaths(r, s.paths);
    FirstIsMatch(Prepare(r), a);
    FewReasons(r, LIMITS);
    ShownInIntent(r, s, LIMITS, p, p', Ref(2, 1));
  }

  /** One candidate has one reason at most. */
  lemma FewReasons(r: Request, l: Limits)
    requires |r.paths| == 1 && l.maxReasons >= 1
    ensures ReasonsFit(r, l)
  {
    hide Evaluate, Prepare, RouteOf;
    var q := Prepare(r);
    assert r.paths[..|r.paths| - 1] == [];
    assert ExcludedPaths(q, []) == [];
    var xs := ExcludedPaths(q, r.paths);
    assert |xs| <= 1;
    if xs != [] { SubsetFewer(ReasonsOf(xs), {xs[0].reason}); }
  }
}
