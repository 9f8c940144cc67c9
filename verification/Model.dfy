/** Placement requests as callers supply them, and their bounds. */
module Model {
  import opened Bytes
  import opened Records

  const DUPLICATE_PATH_ID: StatusCode := 12
  const INVALID_ID: StatusCode := 13
  const CONTRADICTORY_CONSTRAINTS: StatusCode := 16
  const MISSING_FIELD: StatusCode := 18
  const INVALID_FIELD_VALUE: StatusCode := 19
  const STALE_CANDIDATE_SET: StatusCode := 31
  const STALE_CAPACITY_SNAPSHOT: StatusCode := 32
  const STALE_POLICY: StatusCode := 33
  const STALE_QOS: StatusCode := 34
  const STALE_EVIDENCE: StatusCode := 37
  const CAPACITY_INSUFFICIENT: StatusCode := 50
  const SERVICE_CLASS_UNSATISFIED: StatusCode := 51
  const FAILURE_DOMAIN_DIVERSITY_UNMET: StatusCode := 52
  const LATENCY_BUDGET_UNMET: StatusCode := 53
  const POLICY_REJECTED_ALL_PATHS: StatusCode := 71
  const POLICY_MOVE_SUPPRESSED: StatusCode := 73
  const POLICY_HEADROOM_GATE: StatusCode := 74
  const NOT_FOUND: StatusCode := 153

  /** A reservation established elsewhere; zero means none. */
  datatype Ref = Ref(id: u64, generation: u64)

  const NO_REF := Ref(0, 0)

  function RefKey(r: Ref): nat { r.id * U64_LIMIT + r.generation }

  datatype Path = Path(
    id: u64, authority: u64, tier: u8, locality: u64, scope: u8, domain: u64,
    cost: u64, latency: u64, hops: u16, labels: seq<u64>, reservations: seq<Ref>)

  datatype Capacity = Capacity(path: u64, total: u64, residual: u64)

  datatype Evidence = Evidence(path: u64, utilization: u32)

  function PathKey(p: Path): nat { p.id }

  function CapacityKey(c: Capacity): nat { c.path }

  function EvidenceKey(e: Evidence): nat { e.path }

  // Objective kinds.
  const COST: u8 := 0
  const LATENCY: u8 := 1
  const RESIDUAL_CAPACITY: u8 := 2
  const HOP_COUNT: u8 := 3
  const CONGESTION: u8 := 4
  const TIER: u8 := 5
  const LOCALITY_AFFINITY: u8 := 6
  const RESERVATION_AFFINITY: u8 := 7
  const INCUMBENT_STABILITY: u8 := 8

  const MINIMIZE: u8 := 0
  const HARD_EXCLUDE: u8 := 1
  const DEFER: u8 := 1
  const RESERVED: u8 := 3

  datatype Objective = Objective(kind: u8, direction: u8)

  function ObjectiveKey(o: Objective): nat { o.kind }

  function TierKey(t: u8): nat { t }

  /** The part of a policy that is not a list of ids. */
  datatype Rules = Rules(
    objectives: seq<Objective>, requiredLocality: Option<u64>, preferredLocality: Option<u64>,
    requiredDomain: Option<u64>, avoidOccupied: bool, minDistinct: u32, affinityRequired: bool,
    minHeadroom: u64, onBelow: u8, allowDegraded: bool, relaxation: u8,
    onMove: u8, preferIncumbent: bool, moveThreshold: u64, thresholdIndex: u32,
    onMissing: u8, onStale: u8, revalidateAfter: u64)

  datatype Policy = Policy(
    id: u64, generation: u64, rules: Rules, allowedTiers: seq<u8>, requiredLabels: seq<u64>, forbiddenLabels: seq<u64>,
    forbiddenLocalities: seq<u64>, forbiddenDomains: seq<u64>, affinity: seq<Ref>)

  datatype Qos = Qos(id: u64, generation: u64, serviceClass: u8, priority: u8, required: u64, maxLatency: u64)

  datatype Incumbent = Incumbent(
    id: u64, generation: u64, path: u64, pathAuthority: u64, candidates: u64, capacity: u64, policy: u64, qos: u64,
    epoch: u64, reservation: Ref)

  /** The generations the caller asserts are current; zero evidence trusts none. */
  datatype Expected = Expected(path: u64, candidates: u64, capacity: u64, policy: u64, qos: u64, epoch: u64, evidence: u64)

  /** An identity and its generation. */
  datatype Name = Name(id: u64, generation: u64)

  /** Where a request came from; descriptive only. */
  datatype Provenance = Provenance(producer: seq<byte>, version: seq<byte>, sequence: u64, observed: i64)

  datatype Request = Request(
    flow: Name, candidates: Name, paths: seq<Path>, capacity: Name, capacities: seq<Capacity>, qos: Qos, policy: Policy,
    evidence: Name, evidences: seq<Evidence>, incumbent: Option<Incumbent>, occupied: seq<u64>, expected: Expected,
    provenance: Provenance, attempt: u64)

  datatype Limits = Limits(
    maxPaths: nat, maxCapacities: nat, maxEvidences: nat, maxOccupied: nat, maxObjectives: nat, maxLabels: nat,
    maxReservations: nat, maxPolicyLists: nat, maxAffinity: nat, maxRanked: nat, maxSamples: nat, maxReasons: nat)

  const MAX_PROVENANCE := 128

  /** How much residual capacity must remain, as a multiple of what the flow needs. */
  function HeadroomMultiplier(serviceClass: u8): u64 {
    match serviceClass case 1 => 2 case 2 => 3 case 3 => 3 case _ => 1
  }

  const MAX_VALUE: u64 := 0xFFFF_FFFF_FFFF_FFFF

  /** None on overflow, found without overflowing. */
  function CheckedMul(a: u64, b: u64): (r: Option<u64>)
    ensures r == if a * b < U64_LIMIT then Some(a * b) else None
  {
    if a == 0 || b == 0 then Some(0)
    else
      ProductFits(a, b, MAX_VALUE);
      if a > MAX_VALUE / b then None else Some(a * b)
  }

  lemma ProductFits(a: nat, b: nat, m: nat)
    requires b > 0
    ensures a > m / b <==> a * b > m
  {
    var q, r := m / b, m % b;
    assert m == q * b + r && 0 <= r < b;
    if a > q {
      Scales(q + 1, a, b);
      assert (q + 1) * b == q * b + b;
    } else {
      Scales(a, q, b);
    }
  }

  lemma Scales(x: nat, y: nat, b: nat)
    requires x <= y
    ensures x * b <= y * b
  {
    assert y * b == x * b + (y - x) * b;
  }
}
