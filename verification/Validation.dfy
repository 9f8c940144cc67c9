/** Structural validation: everything that can be decided about a request without ranking. */
module Validation {
  import opened Bytes
  import opened Records
  import opened Sorting
  import opened Model

  // ---- the checks, in order -----------------------------------------------------------------------

  function EnumerationCode(r: Request): StatusCode {
    var rules := r.policy.rules;
    if r.qos.serviceClass > 3 || r.qos.priority > 3 || rules.relaxation > 2
       || rules.onBelow > 1 || rules.onMove > 1 || rules.onMissing > 1 || rules.onStale > 1
       || (exists o <- rules.objectives :: o.kind > 8 || o.direction > 1)
       || (exists t <- r.policy.allowedTiers :: t > 2)
       || (exists p <- r.paths :: p.tier > 2 || p.scope > 4)
    then INVALID_FIELD_VALUE
    else OK
  }

  predicate IncumbentNamed(i: Incumbent) {
    && i.id != 0 && i.generation != 0 && i.path != 0 && i.pathAuthority != 0 && i.candidates != 0
    && i.capacity != 0 && i.policy != 0 && i.qos != 0 && i.epoch != 0
  }

  function GenerationCode(r: Request): StatusCode {
    var e := r.expected;
    if r.flow.id == 0 then INVALID_ID
    else if r.flow.generation == 0 then INVALID_FIELD_VALUE
    else if r.candidates.id == 0 then INVALID_ID
    else if r.candidates.generation == 0 then INVALID_FIELD_VALUE
    else if r.capacity.id == 0 then INVALID_ID
    else if r.capacity.generation == 0 then INVALID_FIELD_VALUE
    else if r.qos.id == 0 then INVALID_ID
    else if r.qos.generation == 0 then INVALID_FIELD_VALUE
    else if r.policy.id == 0 then INVALID_ID
    else if r.policy.generation == 0 then INVALID_FIELD_VALUE
    else if e.path == 0 || e.candidates == 0 || e.capacity == 0 || e.policy == 0 || e.qos == 0 || e.epoch == 0 then MISSING_FIELD
    else if (r.evidence.id != 0) != (r.evidence.generation != 0) then INCONSISTENT_AUTHORITY_GENERATION
    else if r.incumbent.None? then OK
    else if !IncumbentNamed(r.incumbent.value) then INVALID_FIELD_VALUE
    else if (r.incumbent.value.reservation.id != 0) != (r.incumbent.value.reservation.generation != 0)
    then INCONSISTENT_AUTHORITY_GENERATION
    else OK
  }

  function BoundsCode(r: Request, l: Limits): StatusCode {
    var p := r.policy;
    if |r.paths| > l.maxPaths || |r.capacities| > l.maxCapacities || |r.evidences| > l.maxEvidences || |r.occupied| > l.maxOccupied
    then OVERSIZE_REQUEST
    else if p.rules.objectives == [] then MISSING_FIELD
    else if |p.rules.objectives| > l.maxObjectives then OVERSIZE_REQUEST
    else if |p.allowedTiers| > 3 then INVALID_FIELD_VALUE
    else if |p.requiredLabels| > l.maxPolicyLists || |p.forbiddenLabels| > l.maxPolicyLists
            || |p.forbiddenLocalities| > l.maxPolicyLists || |p.forbiddenDomains| > l.maxPolicyLists then OVERSIZE_REQUEST
    else if |p.affinity| > l.maxAffinity then OVERSIZE_REQUEST
    else if |r.provenance.producer| > MAX_PROVENANCE || |r.provenance.version| > MAX_PROVENANCE then OVERSIZE_REQUEST
    else OK
  }

  predicate RefValid(r: Ref) { r.id != 0 && r.generation != 0 }

  function PathCode(p: Path, l: Limits): StatusCode {
    if p.id == 0 then INVALID_ID
    else if p.authority == 0 then INCONSISTENT_AUTHORITY_GENERATION
    else if |p.labels| > l.maxLabels || |p.reservations| > l.maxReservations then OVERSIZE_REQUEST
    else if !NoTwins(SortBy(p.labels, Id), Id) then INVALID_FIELD_VALUE
    else if !NoTwins(SortBy(p.reservations, RefKey), RefKey) then INVALID_FIELD_VALUE
    else if exists ref <- p.reservations :: !RefValid(ref) then INCONSISTENT_AUTHORITY_GENERATION
    else OK
  }

  /** The first path that fails decides. */
  function PathsCode(paths: seq<Path>, l: Limits): StatusCode {
    if paths == [] then OK
    else if PathCode(paths[0], l) != OK then PathCode(paths[0], l)
    else PathsCode(paths[1..], l)
  }

  /** Neighbours with one id, from place i of the sorted paths on. */
  function TwinCode(sorted: seq<Path>, i: nat): StatusCode
    requires 1 <= i
    decreases |sorted| - i
  {
    if i >= |sorted| then OK
    else if sorted[i].id == sorted[i - 1].id then
      if sorted[i].authority != sorted[i - 1].authority then INCONSISTENT_AUTHORITY_GENERATION else DUPLICATE_PATH_ID
    else TwinCode(sorted, i + 1)
  }

  function CandidatesCode(r: Request, l: Limits): StatusCode {
    var code := PathsCode(r.paths, l);
    if code != OK then code else TwinCode(SortBy(r.paths, PathKey), 1)
  }

  function CapacityCode(sorted: seq<Capacity>, i: nat): StatusCode
    decreases |sorted| - i
  {
    if i >= |sorted| then OK
    else if sorted[i].path == 0 then INVALID_ID
    else if sorted[i].residual > sorted[i].total then INVALID_FIELD_VALUE
    else if i > 0 && sorted[i].path == sorted[i - 1].path then DUPLICATE_PATH_ID
    else CapacityCode(sorted, i + 1)
  }

  const MAX_UTILIZATION := 1_000_000_000

  function EvidenceCode(sorted: seq<Evidence>, i: nat): StatusCode
    decreases |sorted| - i
  {
    if i >= |sorted| then OK
    else if sorted[i].path == 0 then INVALID_ID
    else if sorted[i].utilization > MAX_UTILIZATION then INVALID_FIELD_VALUE
    else if i > 0 && sorted[i].path == sorted[i - 1].path then DUPLICATE_PATH_ID
    else EvidenceCode(sorted, i + 1)
  }

  function CapacityAndEvidenceCode(r: Request): StatusCode {
    var code := CapacityCode(SortBy(r.capacities, CapacityKey), 0);
    if code != OK then code else EvidenceCode(SortBy(r.evidences, EvidenceKey), 0)
  }

  predicate Repeats(ids: seq<u64>) { !NoTwins(SortBy(ids, Id), Id) }

  /** The failure domains the candidates span. */
  function Domains(paths: seq<Path>): set<u64> {
    set p <- paths | p.domain != 0 :: p.domain
  }

  function PolicyCode(r: Request): StatusCode {
    var p := r.policy;
    var rules := p.rules;
    if !NoTwins(SortBy(rules.objectives, ObjectiveKey), ObjectiveKey) then INVALID_FIELD_VALUE
    else if Repeats(p.requiredLabels) || Repeats(p.forbiddenLabels) then INVALID_FIELD_VALUE
    else if exists x <- p.requiredLabels :: x in p.forbiddenLabels then CONTRADICTORY_CONSTRAINTS
    else if Repeats(p.forbiddenLocalities) then INVALID_FIELD_VALUE
    else if rules.requiredLocality.Some? && rules.requiredLocality.value in p.forbiddenLocalities then CONTRADICTORY_CONSTRAINTS
    else if Repeats(p.forbiddenDomains) then INVALID_FIELD_VALUE
    else if rules.requiredDomain.Some? && rules.requiredDomain.value in p.forbiddenDomains then CONTRADICTORY_CONSTRAINTS
    else if rules.affinityRequired && p.affinity == [] then CONTRADICTORY_CONSTRAINTS
    else if exists ref <- p.affinity :: !RefValid(ref) then INCONSISTENT_AUTHORITY_GENERATION
    else if rules.thresholdIndex >= |rules.objectives| then INVALID_FIELD_VALUE
    else if rules.relaxation > 2 then INVALID_FIELD_VALUE
    else if !rules.allowDegraded && rules.relaxation != 0 then INVALID_FIELD_VALUE
    else if rules.onMove == DEFER && !rules.preferIncumbent then INVALID_FIELD_VALUE
    else if |p.allowedTiers| > 1 && !NoTwins(SortBy(p.allowedTiers, TierKey), TierKey) then INVALID_FIELD_VALUE
    else if CheckedMul(r.qos.required, HeadroomMultiplier(r.qos.serviceClass)).None? then ARITHMETIC_OVERFLOW
    else if rules.minDistinct != 0 && rules.minDistinct > |Domains(r.paths)| then CONTRADICTORY_CONSTRAINTS
    else OK
  }

  function ValidateRequest(r: Request, l: Limits): StatusCode {
    if EnumerationCode(r) != OK then EnumerationCode(r)
    else if GenerationCode(r) != OK then GenerationCode(r)
    else if BoundsCode(r, l) != OK then BoundsCode(r, l)
    else if CandidatesCode(r, l) != OK then CandidatesCode(r, l)
    else if CapacityAndEvidenceCode(r) != OK then CapacityAndEvidenceCode(r)
    else PolicyCode(r)
  }

  // ---- what is accepted, without order --------------------------------------------------------------

  predicate PathWellFormed(p: Path, l: Limits) {
    && p.id != 0 && p.authority != 0 && p.tier <= 2 && p.scope <= 4
    && |p.labels| <= l.maxLabels && |p.reservations| <= l.maxReservations
    && Unique(p.labels, Id) && Unique(p.reservations, RefKey) && forall ref <- p.reservations :: RefValid(ref)
  }

  predicate RulesWellFormed(rules: Rules, l: Limits) {
    && 0 < |rules.objectives| <= l.maxObjectives && Unique(rules.objectives, ObjectiveKey)
    && (forall o <- rules.objectives :: o.kind <= 8 && o.direction <= 1)
    && rules.thresholdIndex < |rules.objectives|
    && rules.relaxation <= 2 && (!rules.allowDegraded ==> rules.relaxation == 0)
    && rules.onBelow <= 1 && rules.onMove <= 1 && rules.onMissing <= 1 && rules.onStale <= 1
    && (rules.onMove == DEFER ==> rules.preferIncumbent)
  }

  predicate PolicyWellFormed(p: Policy, l: Limits) {
    && RulesWellFormed(p.rules, l)
    && |p.allowedTiers| <= 3 && Unique(p.allowedTiers, TierKey) && (forall t <- p.allowedTiers :: t <= 2)
    && |p.requiredLabels| <= l.maxPolicyLists && |p.forbiddenLabels| <= l.maxPolicyLists
    && |p.forbiddenLocalities| <= l.maxPolicyLists && |p.forbiddenDomains| <= l.maxPolicyLists && |p.affinity| <= l.maxAffinity
    && Unique(p.requiredLabels, Id) && Unique(p.forbiddenLabels, Id)
    && Unique(p.forbiddenLocalities, Id) && Unique(p.forbiddenDomains, Id)
    && (forall x <- p.requiredLabels :: x !in p.forbiddenLabels)
    && (p.rules.requiredLocality.Some? ==> p.rules.requiredLocality.value !in p.forbiddenLocalities)
    && (p.rules.requiredDomain.Some? ==> p.rules.requiredDomain.value !in p.forbiddenDomains)
    && (p.rules.affinityRequired ==> p.affinity != []) && (forall ref <- p.affinity :: RefValid(ref))
  }

  predicate FactsWellFormed(r: Request, l: Limits) {
    && |r.paths| <= l.maxPaths && |r.capacities| <= l.maxCapacities && |r.evidences| <= l.maxEvidences && |r.occupied| <= l.maxOccupied
    && (forall p <- r.paths :: PathWellFormed(p, l)) && Unique(r.paths, PathKey)
    && (forall c <- r.capacities :: c.path != 0 && c.residual <= c.total) && Unique(r.capacities, CapacityKey)
    && (forall e <- r.evidences :: e.path != 0 && e.utilization <= MAX_UTILIZATION) && Unique(r.evidences, EvidenceKey)
  }

  /** A request that can be ranked: bounded, complete, free of duplicates and of contradictions. */
  predicate WellFormed(r: Request, l: Limits) {
    && r.qos.serviceClass <= 3 && r.qos.priority <= 3
    && GenerationCode(r) == OK
    && |r.provenance.producer| <= MAX_PROVENANCE && |r.provenance.version| <= MAX_PROVENANCE
    && FactsWellFormed(r, l) && PolicyWellFormed(r.policy, l)
    && r.qos.required * HeadroomMultiplier(r.qos.serviceClass) < U64_LIMIT
    && r.policy.rules.minDistinct <= |Domains(r.paths)|
  }

  lemma PathCodeExactly(p: Path, l: Limits)
    ensures PathCode(p, l) == OK && p.tier <= 2 && p.scope <= 4 <==> PathWellFormed(p, l)
  {
    hide SortBy, NoTwins, Unique;
    SortedTwins(p.labels, Id);
    SortedTwins(p.reservations, RefKey);
  }

  lemma {:induction false} PathsCodeExactly(paths: seq<Path>, l: Limits)
    ensures PathsCode(paths, l) == OK <==> forall p <- paths :: PathCode(p, l) == OK
    decreases |paths|
  {
    hide PathCode;
    if paths != [] {
      PathsCodeExactly(paths[1..], l);
      assert forall p :: p in paths <==> p == paths[0] || p in paths[1..];
    }
  }

  lemma {:induction false} TwinCodeExactly(sorted: seq<Path>, i: nat)
    requires 1 <= i
    ensures TwinCode(sorted, i) == OK <==> forall k :: i <= k < |sorted| ==> PathKey(sorted[k]) != PathKey(sorted[k - 1])
    decreases |sorted| - i
  {
    if i < |sorted| {
      TwinCodeExactly(sorted, i + 1);
      assert PathKey(sorted[i]) == sorted[i].id && PathKey(sorted[i - 1]) == sorted[i - 1].id;
    }
  }

  lemma {:induction false} CapacityCodeExactly(sorted: seq<Capacity>, i: nat)
    ensures CapacityCode(sorted, i) == OK <==>
              (forall k :: i <= k < |sorted| ==> sorted[k].path != 0 && sorted[k].residual <= sorted[k].total)
              && (forall k :: i <= k < |sorted| && 0 < k ==> CapacityKey(sorted[k]) != CapacityKey(sorted[k - 1]))
    decreases |sorted| - i
  {
    if i < |sorted| {
      CapacityCodeExactly(sorted, i + 1);
      assert CapacityKey(sorted[i]) == sorted[i].path;
      assert i > 0 ==> CapacityKey(sorted[i - 1]) == sorted[i - 1].path;
    }
  }

  lemma {:induction false} EvidenceCodeExactly(sorted: seq<Evidence>, i: nat)
    ensures EvidenceCode(sorted, i) == OK <==>
              (forall k :: i <= k < |sorted| ==> sorted[k].path != 0 && sorted[k].utilization <= MAX_UTILIZATION)
              && (forall k :: i <= k < |sorted| && 0 < k ==> EvidenceKey(sorted[k]) != EvidenceKey(sorted[k - 1]))
    decreases |sorted| - i
  {
    if i < |sorted| {
      EvidenceCodeExactly(sorted, i + 1);
      assert EvidenceKey(sorted[i]) == sorted[i].path;
      assert i > 0 ==> EvidenceKey(sorted[i - 1]) == sorted[i - 1].path;
    }
  }

  lemma FactsExactly(r: Request, l: Limits)
    ensures CandidatesCode(r, l) == OK && CapacityAndEvidenceCode(r) == OK
            && |r.paths| <= l.maxPaths && |r.capacities| <= l.maxCapacities && |r.evidences| <= l.maxEvidences
            && |r.occupied| <= l.maxOccupied && (forall p <- r.paths :: p.tier <= 2 && p.scope <= 4)
            <==> FactsWellFormed(r, l)
  {
    CandidatesExactly(r, l);
    CapacityExactly(r);
    EvidenceExactly(r);
    hide CandidatesCode, CapacityCode, EvidenceCode, SortBy, Unique, PathWellFormed, PathCode;
    forall p | p in r.paths ensures PathCode(p, l) == OK && p.tier <= 2 && p.scope <= 4 <==> PathWellFormed(p, l) {
      PathCodeExactly(p, l);
    }
  }

  lemma CandidatesExactly(r: Request, l: Limits)
    ensures CandidatesCode(r, l) == OK <==> (forall p <- r.paths :: PathCode(p, l) == OK) && Unique(r.paths, PathKey)
  {
    hide SortBy, Unique, PathCode;
    PathsCodeExactly(r.paths, l);
    TwinCodeExactly(SortBy(r.paths, PathKey), 1);
    SortedTwins(r.paths, PathKey);
  }

  lemma CapacityExactly(r: Request)
    ensures CapacityCode(SortBy(r.capacities, CapacityKey), 0) == OK <==>
              (forall c <- r.capacities :: c.path != 0 && c.residual <= c.total) && Unique(r.capacities, CapacityKey)
  {
    hide SortBy, Unique, CapacityCode;
    var sorted := SortBy(r.capacities, CapacityKey);
    SortKeeps(r.capacities, CapacityKey);
    CapacityCodeExactly(sorted, 0);
    SortedTwins(r.capacities, CapacityKey);
    assert (forall c <- sorted :: c.path != 0 && c.residual <= c.total) <==> (forall c <- r.capacities :: c.path != 0 && c.residual <= c.total);
  }

  lemma EvidenceExactly(r: Request)
    ensures EvidenceCode(SortBy(r.evidences, EvidenceKey), 0) == OK <==>
              (forall e <- r.evidences :: e.path != 0 && e.utilization <= MAX_UTILIZATION) && Unique(r.evidences, EvidenceKey)
  {
    hide SortBy, Unique, EvidenceCode;
    var sorted := SortBy(r.evidences, EvidenceKey);
    SortKeeps(r.evidences, EvidenceKey);
    EvidenceCodeExactly(sorted, 0);
    SortedTwins(r.evidences, EvidenceKey);
    assert (forall e <- sorted :: e.path != 0 && e.utilization <= MAX_UTILIZATION)
      <==> (forall e <- r.evidences :: e.path != 0 && e.utilization <= MAX_UTILIZATION);
  }

  lemma ShortIsUnique(tiers: seq<u8>)
    requires |tiers| <= 1
    ensures Unique(tiers, TierKey)
  {
  }

  /** Validation accepts exactly the well-formed requests, whatever the order of what they list. */
  lemma AcceptsExactly(r: Request, l: Limits)
    ensures ValidateRequest(r, l) == OK <==> WellFormed(r, l)
  {
    hide SortBy, NoTwins, Unique, CandidatesCode, CapacityAndEvidenceCode, GenerationCode, FactsWellFormed, Domains, HeadroomMultiplier;
    var p := r.policy;
    FactsExactly(r, l);
    SortedTwins(p.rules.objectives, ObjectiveKey);
    SortedTwins(p.requiredLabels, Id);
    SortedTwins(p.forbiddenLabels, Id);
    SortedTwins(p.forbiddenLocalities, Id);
    SortedTwins(p.forbiddenDomains, Id);
    SortedTwins(p.allowedTiers, TierKey);
    if |p.allowedTiers| <= 1 { ShortIsUnique(p.allowedTiers); }
  }
}
