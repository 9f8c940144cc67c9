/** The wire form of placement requests. */
module RequestCodec {
  import opened Bytes
  import opened Records
  import opened Model
  import opened Formats

  const MAX_UTILIZATION: u32 := 1_000_000_000

  // ---- parts ----------------------------------------------------------------------------------------

  function NameOf(v: seq<u64>): Name { if |v| == 2 then Name(v[0], v[1]) else Name(0, 0) }

  function NameFormat(): Format<Name> {
    As(Fields(2, WIRE_MALFORMED), NameOf, (n: Name) => [n.id, n.generation])
  }

  function RefOf(v: seq<u64>): Ref { if |v| == 2 then Ref(v[0], v[1]) else NO_REF }

  function RefFormat(): Format<Ref> {
    As(Fields(2, WIRE_MALFORMED), RefOf, (r: Ref) => [r.id, r.generation])
  }

  function Ids(limit: nat, code: StatusCode): Format<seq<u64>> {
    List(U64(code), limit, code, code)
  }

  type PathParts = (seq<u64>, (u8, (u64, (u8, (seq<u64>, (u16, (seq<u64>, seq<Ref>)))))))

  function PathFrom(t: PathParts): Path {
    var a, b := t.0, t.1.1.1.1.0;
    if |a| == 2 && |b| == 3 then
      Path(a[0], a[1], t.1.0, t.1.1.0, t.1.1.1.0, b[0], b[1], b[2], t.1.1.1.1.1.0, t.1.1.1.1.1.1.0, t.1.1.1.1.1.1.1)
    else Path(0, 0, 0, 0, 0, 0, 0, 0, 0, [], [])
  }

  function PathTo(p: Path): PathParts {
    ([p.id, p.authority], (p.tier, (p.locality, (p.scope, ([p.domain, p.cost, p.latency], (p.hops, (p.labels, p.reservations)))))))
  }

  /** A label list that cannot be read counts as oversize. */
  function PathFormat(l: Limits): Format<Path> {
    As(Both(Fields(2, WIRE_MALFORMED), Both(Enum(2, WIRE_MALFORMED), Both(U64(WIRE_MALFORMED), Both(Enum(4, WIRE_MALFORMED),
       Both(Fields(3, WIRE_MALFORMED), Both(U16(WIRE_MALFORMED), Both(Ids(l.maxLabels, OVERSIZE_REQUEST),
       List(RefFormat(), l.maxReservations, WIRE_MALFORMED, OVERSIZE_REQUEST)))))))),
       PathFrom, PathTo)
  }

  function CapacityOf(v: seq<u64>): Capacity { if |v| == 3 then Capacity(v[0], v[1], v[2]) else Capacity(0, 0, 0) }

  function CapacityFormat(): Format<Capacity> {
    As(Fields(3, WIRE_MALFORMED), CapacityOf, (c: Capacity) => [c.path, c.total, c.residual])
  }

  function EvidenceFormat(): Format<Evidence> {
    As(Both(U64(WIRE_MALFORMED), Where(U32(WIRE_MALFORMED), (u: u32) => u <= MAX_UTILIZATION, INVALID_FIELD_VALUE)),
       (t: (u64, u32)) => Evidence(t.0, t.1), (e: Evidence) => (e.path, e.utilization))
  }

  type QosParts = (seq<u64>, (u8, (u8, seq<u64>)))

  function QosFrom(t: QosParts): Qos {
    var a, b := t.0, t.1.1.1;
    if |a| == 2 && |b| == 2 then Qos(a[0], a[1], t.1.0, t.1.1.0, b[0], b[1]) else Qos(0, 0, 0, 0, 0, 0)
  }

  function QosFormat(): Format<Qos> {
    As(Both(Fields(2, WIRE_MALFORMED), Both(Enum(3, WIRE_MALFORMED), Both(Enum(3, WIRE_MALFORMED), Fields(2, WIRE_MALFORMED)))),
       QosFrom, (q: Qos) => ([q.id, q.generation], (q.serviceClass, (q.priority, [q.required, q.maxLatency]))))
  }

  function ObjectiveFormat(): Format<Objective> {
    As(Both(Enum(8, WIRE_MALFORMED), Enum(1, WIRE_MALFORMED)), (t: (u8, u8)) => Objective(t.0, t.1), (o: Objective) => (o.kind, o.direction))
  }

  // ---- policies -----------------------------------------------------------------------------------------

  type Objectives = (seq<u64>, (seq<Objective>, (seq<u8>, (seq<u64>, seq<u64>))))
  type Places = (Option<u64>, (Option<u64>, (seq<u64>, (Option<u64>, seq<u64>))))
  type Domains = (bool, (u32, (bool, (seq<Ref>, (u64, u8)))))
  type Churn = (bool, (u8, (u8, (bool, (u64, u32)))))
  type Modes = (u8, (u8, u64))
  type PolicyParts = (Objectives, (Places, (Domains, (Churn, Modes))))

  function ObjectivesFormat(l: Limits): Format<Objectives> {
    Both(Fields(2, WIRE_MALFORMED),
         Both(Where(List(ObjectiveFormat(), l.maxObjectives, WIRE_MALFORMED, WIRE_MALFORMED), (os: seq<Objective>) => os != [], WIRE_MALFORMED),
              Both(List(Enum(2, WIRE_MALFORMED), 3, WIRE_MALFORMED, WIRE_MALFORMED),
                   Both(Ids(l.maxPolicyLists, WIRE_MALFORMED), Ids(l.maxPolicyLists, WIRE_MALFORMED)))))
  }

  function PlacesFormat(l: Limits): Format<Places> {
    Both(OptionalId(WIRE_MALFORMED), Both(OptionalId(WIRE_MALFORMED), Both(Ids(l.maxPolicyLists, WIRE_MALFORMED),
         Both(OptionalId(WIRE_MALFORMED), Ids(l.maxPolicyLists, WIRE_MALFORMED)))))
  }

  function DomainsFormat(l: Limits): Format<Domains> {
    Both(Flag(WIRE_MALFORMED), Both(U32(WIRE_MALFORMED), Both(Flag(WIRE_MALFORMED),
         Both(List(RefFormat(), l.maxAffinity, WIRE_MALFORMED, WIRE_MALFORMED), Both(U64(WIRE_MALFORMED), Enum(1, WIRE_MALFORMED))))))
  }

  function ChurnFormat(): Format<Churn> {
    Both(Flag(WIRE_MALFORMED), Both(Enum(2, WIRE_MALFORMED), Both(Enum(1, WIRE_MALFORMED), Both(Flag(WIRE_MALFORMED),
         Both(U64(WIRE_MALFORMED), U32(WIRE_MALFORMED))))))
  }

  function ModesFormat(): Format<Modes> {
    Both(Enum(1, WIRE_MALFORMED), Both(Enum(1, WIRE_MALFORMED), U64(WIRE_MALFORMED)))
  }

  function PolicyFrom(t: PolicyParts): Policy {
    var o, p, d, c, m := t.0, t.1.0, t.1.1.0, t.1.1.1.0, t.1.1.1.1;
    var n := NameOf(o.0);
    var rules := Rules(o.1.0, p.0, p.1.0, p.1.1.1.0, d.0, d.1.0, d.1.1.0, d.1.1.1.1.0, d.1.1.1.1.1, c.0, c.1.0,
                       c.1.1.0, c.1.1.1.0, c.1.1.1.1.0, c.1.1.1.1.1, m.0, m.1.0, m.1.1);
    Policy(n.id, n.generation, rules, o.1.1.0, o.1.1.1.0, o.1.1.1.1, p.1.1.0, p.1.1.1.1, d.1.1.1.0)
  }

  function PolicyTo(p: Policy): PolicyParts {
    var r := p.rules;
    (([p.id, p.generation], (r.objectives, (p.allowedTiers, (p.requiredLabels, p.forbiddenLabels)))),
     ((r.requiredLocality, (r.preferredLocality, (p.forbiddenLocalities, (r.requiredDomain, p.forbiddenDomains)))),
      ((r.avoidOccupied, (r.minDistinct, (r.affinityRequired, (p.affinity, (r.minHeadroom, r.onBelow))))),
       ((r.allowDegraded, (r.relaxation, (r.onMove, (r.preferIncumbent, (r.moveThreshold, r.thresholdIndex))))),
        (r.onMissing, (r.onStale, r.revalidateAfter))))))
  }

  function PolicyFormat(l: Limits): Format<Policy> {
    As(Both(ObjectivesFormat(l), Both(PlacesFormat(l), Both(DomainsFormat(l), Both(ChurnFormat(), ModesFormat())))),
       PolicyFrom, PolicyTo)
  }

  // ---- requests -------------------------------------------------------------------------------------------

  function IncumbentOf(v: seq<u64>): Incumbent {
    if |v| == 11 then Incumbent(v[0], v[1], v[2], v[3], v[4], v[5], v[6], v[7], v[8], Ref(v[9], v[10]))
    else Incumbent(0, 0, 0, 0, 0, 0, 0, 0, 0, NO_REF)
  }

  function IncumbentFormat(): Format<Incumbent> {
    As(Fields(11, WIRE_MALFORMED), IncumbentOf,
       (i: Incumbent) => [i.id, i.generation, i.path, i.pathAuthority, i.candidates, i.capacity, i.policy, i.qos, i.epoch,
                          i.reservation.id, i.reservation.generation])
  }

  function ExpectedOf(v: seq<u64>): Expected {
    if |v| == 7 then Expected(v[0], v[1], v[2], v[3], v[4], v[5], v[6]) else Expected(0, 0, 0, 0, 0, 0, 0)
  }

  function ExpectedFormat(): Format<Expected> {
    As(Fields(7, WIRE_MALFORMED), ExpectedOf,
       (e: Expected) => [e.path, e.candidates, e.capacity, e.policy, e.qos, e.epoch, e.evidence])
  }

  type ProvenanceParts = (seq<byte>, (seq<byte>, seq<u64>))

  function ProvenanceFrom(t: ProvenanceParts): Provenance {
    if |t.1.1| == 2 then Provenance(t.0, t.1.0, t.1.1[0], I64Of(t.1.1[1])) else Provenance([], [], 0, 0)
  }

  function ProvenanceFormat(): Format<Provenance> {
    As(Both(Text(MAX_PROVENANCE, WIRE_MALFORMED), Both(Text(MAX_PROVENANCE, WIRE_MALFORMED), Fields(2, WIRE_MALFORMED))),
       ProvenanceFrom, (p: Provenance) => (p.producer, (p.version, [p.sequence, I64Bits(p.observed)])))
  }

  type Candidates = (Name, (Name, (seq<Path>, (Name, seq<Capacity>))))
  type Facts = (Qos, (Name, (seq<Evidence>, Policy)))
  type Tail = (Option<Incumbent>, (seq<u64>, (Expected, (Provenance, u64))))
  type RequestParts = (Candidates, (Facts, Tail))

  function CandidatesFormat(l: Limits): Format<Candidates> {
    Both(NameFormat(), Both(NameFormat(), Both(List(PathFormat(l), l.maxPaths, WIRE_MALFORMED, OVERSIZE_REQUEST),
         Both(NameFormat(), List(CapacityFormat(), l.maxCapacities, WIRE_MALFORMED, OVERSIZE_REQUEST)))))
  }

  function FactsFormat(l: Limits): Format<Facts> {
    Both(QosFormat(), Both(NameFormat(), Both(List(EvidenceFormat(), l.maxEvidences, WIRE_MALFORMED, OVERSIZE_REQUEST), PolicyFormat(l))))
  }

  function TailFormat(l: Limits): Format<Tail> {
    Both(Optional(IncumbentFormat(), WIRE_MALFORMED), Both(Ids(l.maxOccupied, OVERSIZE_REQUEST),
         Both(ExpectedFormat(), Both(ProvenanceFormat(), U64(WIRE_MALFORMED)))))
  }

  function RequestFrom(t: RequestParts): Request {
    var c, f, e := t.0, t.1.0, t.1.1;
    Request(c.0, c.1.0, c.1.1.0, c.1.1.1.0, c.1.1.1.1, f.0, f.1.1.1, f.1.0, f.1.1.0, e.0, e.1.0, e.1.1.0, e.1.1.1.0, e.1.1.1.1)
  }

  function RequestTo(r: Request): RequestParts {
    ((r.flow, (r.candidates, (r.paths, (r.capacity, r.capacities)))),
     ((r.qos, (r.evidence, (r.evidences, r.policy))),
      (r.incumbent, (r.occupied, (r.expected, (r.provenance, r.attempt))))))
  }

  function RequestFormat(l: Limits): Format<Request> {
    As(Both(CandidatesFormat(l), Both(FactsFormat(l), TailFormat(l))), RequestFrom, RequestTo)
  }

  // ---- lawfulness ----------------------------------------------------------------------------------------------

  lemma NameLawful()
    ensures Lawful(NameFormat())
  {
    FieldsLawful(2, WIRE_MALFORMED);
    hide Lawful;
    AsLawful(Fields(2, WIRE_MALFORMED), NameOf, (n: Name) => [n.id, n.generation]);
  }

  lemma RefLawful()
    ensures Lawful(RefFormat())
  {
    FieldsLawful(2, WIRE_MALFORMED);
    hide Lawful;
    AsLawful(Fields(2, WIRE_MALFORMED), RefOf, (r: Ref) => [r.id, r.generation]);
  }

  lemma IdsLawful(limit: nat, code: StatusCode)
    ensures Lawful(Ids(limit, code))
  {
    U64Lawful(code);
    hide Lawful;
    ListLawful(U64(code), limit, code, code);
  }

  lemma PathLawful(l: Limits)
    ensures Lawful(PathFormat(l))
  {
    hide Lawful, As, Both, List, Fields, Enum, U64, U16, Ids;
    RefLawful();
    var reservations := List(RefFormat(), l.maxReservations, WIRE_MALFORMED, OVERSIZE_REQUEST);
    ListLawful(RefFormat(), l.maxReservations, WIRE_MALFORMED, OVERSIZE_REQUEST);
    IdsLawful(l.maxLabels, OVERSIZE_REQUEST);
    var p7 := Both(Ids(l.maxLabels, OVERSIZE_REQUEST), reservations);
    BothLawful(Ids(l.maxLabels, OVERSIZE_REQUEST), reservations);
    U16Lawful(WIRE_MALFORMED);
    BothLawful(U16(WIRE_MALFORMED), p7);
    var p6 := Both(U16(WIRE_MALFORMED), p7);
    FieldsLawful(3, WIRE_MALFORMED);
    BothLawful(Fields(3, WIRE_MALFORMED), p6);
    var p5 := Both(Fields(3, WIRE_MALFORMED), p6);
    EnumLawful(4, WIRE_MALFORMED);
    BothLawful(Enum(4, WIRE_MALFORMED), p5);
    var p4 := Both(Enum(4, WIRE_MALFORMED), p5);
    U64Lawful(WIRE_MALFORMED);
    BothLawful(U64(WIRE_MALFORMED), p4);
    var p3 := Both(U64(WIRE_MALFORMED), p4);
    EnumLawful(2, WIRE_MALFORMED);
    BothLawful(Enum(2, WIRE_MALFORMED), p3);
    var p2 := Both(Enum(2, WIRE_MALFORMED), p3);
    FieldsLawful(2, WIRE_MALFORMED);
    BothLawful(Fields(2, WIRE_MALFORMED), p2);
    AsLawful(Both(Fields(2, WIRE_MALFORMED), p2), PathFrom, PathTo);
  }

  lemma FactLawful(l: Limits)
    ensures Lawful(CapacityFormat()) && Lawful(EvidenceFormat()) && Lawful(QosFormat())
    ensures Lawful(IncumbentFormat()) && Lawful(ExpectedFormat())
  {
    hide Lawful, As, Both, Fields, Enum, U64, U32, Where;
    FieldsLawful(3, WIRE_MALFORMED);
    AsLawful(Fields(3, WIRE_MALFORMED), CapacityOf, (c: Capacity) => [c.path, c.total, c.residual]);
    U32Lawful(WIRE_MALFORMED);
    var low := Where(U32(WIRE_MALFORMED), (u: u32) => u <= MAX_UTILIZATION, INVALID_FIELD_VALUE);
    WhereLawful(U32(WIRE_MALFORMED), (u: u32) => u <= MAX_UTILIZATION, INVALID_FIELD_VALUE);
    U64Lawful(WIRE_MALFORMED);
    BothLawful(U64(WIRE_MALFORMED), low);
    AsLawful(Both(U64(WIRE_MALFORMED), low), (t: (u64, u32)) => Evidence(t.0, t.1), (e: Evidence) => (e.path, e.utilization));
    FieldsLawful(2, WIRE_MALFORMED);
    EnumLawful(3, WIRE_MALFORMED);
    BothLawful(Enum(3, WIRE_MALFORMED), Fields(2, WIRE_MALFORMED));
    var q2 := Both(Enum(3, WIRE_MALFORMED), Fields(2, WIRE_MALFORMED));
    BothLawful(Enum(3, WIRE_MALFORMED), q2);
    BothLawful(Fields(2, WIRE_MALFORMED), Both(Enum(3, WIRE_MALFORMED), q2));
    AsLawful(Both(Fields(2, WIRE_MALFORMED), Both(Enum(3, WIRE_MALFORMED), q2)), QosFrom,
             (q: Qos) => ([q.id, q.generation], (q.serviceClass, (q.priority, [q.required, q.maxLatency]))));
    FieldsLawful(11, WIRE_MALFORMED);
    AsLawful(Fields(11, WIRE_MALFORMED), IncumbentOf,
             (i: Incumbent) => [i.id, i.generation, i.path, i.pathAuthority, i.candidates, i.capacity, i.policy, i.qos, i.epoch,
                                i.reservation.id, i.reservation.generation]);
    FieldsLawful(7, WIRE_MALFORMED);
    AsLawful(Fields(7, WIRE_MALFORMED), ExpectedOf,
             (e: Expected) => [e.path, e.candidates, e.capacity, e.policy, e.qos, e.epoch, e.evidence]);
  }

  lemma ProvenanceLawful()
    ensures Lawful(ProvenanceFormat())
  {
    hide Lawful, As, Both, Fields, Text;
    TextLawful(MAX_PROVENANCE, WIRE_MALFORMED);
    FieldsLawful(2, WIRE_MALFORMED);
    var t := Both(Text(MAX_PROVENANCE, WIRE_MALFORMED), Fields(2, WIRE_MALFORMED));
    BothLawful(Text(MAX_PROVENANCE, WIRE_MALFORMED), Fields(2, WIRE_MALFORMED));
    BothLawful(Text(MAX_PROVENANCE, WIRE_MALFORMED), t);
    AsLawful(Both(Text(MAX_PROVENANCE, WIRE_MALFORMED), t), ProvenanceFrom,
             (p: Provenance) => (p.producer, (p.version, [p.sequence, I64Bits(p.observed)])));
  }

  lemma ObjectivesLawful(l: Limits)
    ensures Lawful(ObjectivesFormat(l))
  {
    hide Lawful, As, Both, Fields, Enum, List, Where, Ids;
    EnumLawful(8, WIRE_MALFORMED);
    EnumLawful(1, WIRE_MALFORMED);
    EnumLawful(2, WIRE_MALFORMED);
    BothLawful(Enum(8, WIRE_MALFORMED), Enum(1, WIRE_MALFORMED));
    AsLawful(Both(Enum(8, WIRE_MALFORMED), Enum(1, WIRE_MALFORMED)), (t: (u8, u8)) => Objective(t.0, t.1), (o: Objective) => (o.kind, o.direction));
    var os := List(ObjectiveFormat(), l.maxObjectives, WIRE_MALFORMED, WIRE_MALFORMED);
    ListLawful(ObjectiveFormat(), l.maxObjectives, WIRE_MALFORMED, WIRE_MALFORMED);
    WhereLawful(os, (os: seq<Objective>) => os != [], WIRE_MALFORMED);
    ListLawful(Enum(2, WIRE_MALFORMED), 3, WIRE_MALFORMED, WIRE_MALFORMED);
    IdsLawful(l.maxPolicyLists, WIRE_MALFORMED);
    var ids := Ids(l.maxPolicyLists, WIRE_MALFORMED);
    BothLawful(ids, ids);
    var tiers := List(Enum(2, WIRE_MALFORMED), 3, WIRE_MALFORMED, WIRE_MALFORMED);
    BothLawful(tiers, Both(ids, ids));
    var some := Where(os, (os: seq<Objective>) => os != [], WIRE_MALFORMED);
    BothLawful(some, Both(tiers, Both(ids, ids)));
    FieldsLawful(2, WIRE_MALFORMED);
    BothLawful(Fields(2, WIRE_MALFORMED), Both(some, Both(tiers, Both(ids, ids))));
  }

  lemma PlacesLawful(l: Limits)
    ensures Lawful(PlacesFormat(l))
  {
    hide Lawful, Both, OptionalId, Ids;
    var ids, id := Ids(l.maxPolicyLists, WIRE_MALFORMED), OptionalId(WIRE_MALFORMED);
    IdsLawful(l.maxPolicyLists, WIRE_MALFORMED);
    OptionalIdLawful(WIRE_MALFORMED);
    BothLawful(id, ids);
    BothLawful(ids, Both(id, ids));
    BothLawful(id, Both(ids, Both(id, ids)));
    BothLawful(id, Both(id, Both(ids, Both(id, ids))));
  }

  lemma DomainsLawful(l: Limits)
    ensures Lawful(DomainsFormat(l))
  {
    hide Lawful, Both, Flag, Enum, U64, U32, List;
    FlagLawful(WIRE_MALFORMED);
    U32Lawful(WIRE_MALFORMED);
    U64Lawful(WIRE_MALFORMED);
    EnumLawful(1, WIRE_MALFORMED);
    RefLawful();
    var refs := List(RefFormat(), l.maxAffinity, WIRE_MALFORMED, WIRE_MALFORMED);
    ListLawful(RefFormat(), l.maxAffinity, WIRE_MALFORMED, WIRE_MALFORMED);
    var d5 := Both(U64(WIRE_MALFORMED), Enum(1, WIRE_MALFORMED));
    BothLawful(U64(WIRE_MALFORMED), Enum(1, WIRE_MALFORMED));
    BothLawful(refs, d5);
    BothLawful(Flag(WIRE_MALFORMED), Both(refs, d5));
    BothLawful(U32(WIRE_MALFORMED), Both(Flag(WIRE_MALFORMED), Both(refs, d5)));
    BothLawful(Flag(WIRE_MALFORMED), Both(U32(WIRE_MALFORMED), Both(Flag(WIRE_MALFORMED), Both(refs, d5))));
  }

  lemma ChurnLawful()
    ensures Lawful(ChurnFormat()) && Lawful(ModesFormat())
  {
    hide Lawful, Both, Flag, Enum, U64, U32;
    FlagLawful(WIRE_MALFORMED);
    EnumLawful(1, WIRE_MALFORMED);
    EnumLawful(2, WIRE_MALFORMED);
    U32Lawful(WIRE_MALFORMED);
    U64Lawful(WIRE_MALFORMED);
    var c5 := Both(U64(WIRE_MALFORMED), U32(WIRE_MALFORMED));
    BothLawful(U64(WIRE_MALFORMED), U32(WIRE_MALFORMED));
    BothLawful(Flag(WIRE_MALFORMED), c5);
    BothLawful(Enum(1, WIRE_MALFORMED), Both(Flag(WIRE_MALFORMED), c5));
    BothLawful(Enum(2, WIRE_MALFORMED), Both(Enum(1, WIRE_MALFORMED), Both(Flag(WIRE_MALFORMED), c5)));
    BothLawful(Flag(WIRE_MALFORMED), Both(Enum(2, WIRE_MALFORMED), Both(Enum(1, WIRE_MALFORMED), Both(Flag(WIRE_MALFORMED), c5))));
    BothLawful(Enum(1, WIRE_MALFORMED), U64(WIRE_MALFORMED));
    BothLawful(Enum(1, WIRE_MALFORMED), Both(Enum(1, WIRE_MALFORMED), U64(WIRE_MALFORMED)));
  }

  lemma PolicyLawful(l: Limits)
    ensures Lawful(PolicyFormat(l))
  {
    hide Lawful, As, Both, ObjectivesFormat, PlacesFormat, DomainsFormat, ChurnFormat, ModesFormat;
    ObjectivesLawful(l);
    PlacesLawful(l);
    DomainsLawful(l);
    ChurnLawful();
    var p4 := Both(ChurnFormat(), ModesFormat());
    BothLawful(ChurnFormat(), ModesFormat());
    BothLawful(DomainsFormat(l), p4);
    BothLawful(PlacesFormat(l), Both(DomainsFormat(l), p4));
    BothLawful(ObjectivesFormat(l), Both(PlacesFormat(l), Both(DomainsFormat(l), p4)));
    AsLawful(Both(ObjectivesFormat(l), Both(PlacesFormat(l), Both(DomainsFormat(l), p4))), PolicyFrom, PolicyTo);
  }

  lemma CandidatesLawful(l: Limits)
    ensures Lawful(CandidatesFormat(l))
  {
    hide Lawful, Both, List, NameFormat, PathFormat, CapacityFormat;
    NameLawful();
    PathLawful(l);
    FactLawful(l);
    var paths := List(PathFormat(l), l.maxPaths, WIRE_MALFORMED, OVERSIZE_REQUEST);
    var capacities := List(CapacityFormat(), l.maxCapacities, WIRE_MALFORMED, OVERSIZE_REQUEST);
    ListLawful(PathFormat(l), l.maxPaths, WIRE_MALFORMED, OVERSIZE_REQUEST);
    ListLawful(CapacityFormat(), l.maxCapacities, WIRE_MALFORMED, OVERSIZE_REQUEST);
    BothLawful(NameFormat(), capacities);
    BothLawful(paths, Both(NameFormat(), capacities));
    BothLawful(NameFormat(), Both(paths, Both(NameFormat(), capacities)));
    BothLawful(NameFormat(), Both(NameFormat(), Both(paths, Both(NameFormat(), capacities))));
  }

  lemma FactsLawful(l: Limits)
    ensures Lawful(FactsFormat(l))
  {
    hide Lawful, Both, List, NameFormat, QosFormat, EvidenceFormat, PolicyFormat;
    NameLawful();
    FactLawful(l);
    PolicyLawful(l);
    var evidences := List(EvidenceFormat(), l.maxEvidences, WIRE_MALFORMED, OVERSIZE_REQUEST);
    ListLawful(EvidenceFormat(), l.maxEvidences, WIRE_MALFORMED, OVERSIZE_REQUEST);
    BothLawful(evidences, PolicyFormat(l));
    BothLawful(NameFormat(), Both(evidences, PolicyFormat(l)));
    BothLawful(QosFormat(), Both(NameFormat(), Both(evidences, PolicyFormat(l))));
  }

  lemma TailLawful(l: Limits)
    ensures Lawful(TailFormat(l))
  {
    hide Lawful, Both, Ids, Optional, U64, IncumbentFormat, ExpectedFormat, ProvenanceFormat;
    FactLawful(l);
    ProvenanceLawful();
    U64Lawful(WIRE_MALFORMED);
    IdsLawful(l.maxOccupied, OVERSIZE_REQUEST);
    OptionalLawful(IncumbentFormat(), WIRE_MALFORMED);
    BothLawful(ProvenanceFormat(), U64(WIRE_MALFORMED));
    var t3 := Both(ExpectedFormat(), Both(ProvenanceFormat(), U64(WIRE_MALFORMED)));
    BothLawful(ExpectedFormat(), Both(ProvenanceFormat(), U64(WIRE_MALFORMED)));
    BothLawful(Ids(l.maxOccupied, OVERSIZE_REQUEST), t3);
    BothLawful(Optional(IncumbentFormat(), WIRE_MALFORMED), Both(Ids(l.maxOccupied, OVERSIZE_REQUEST), t3));
  }

  lemma RequestLawful(l: Limits)
    ensures Lawful(RequestFormat(l))
  {
    hide Lawful, As, Both, CandidatesFormat, FactsFormat, TailFormat;
    CandidatesLawful(l);
    FactsLawful(l);
    TailLawful(l);
    BothLawful(FactsFormat(l), TailFormat(l));
    BothLawful(CandidatesFormat(l), Both(FactsFormat(l), TailFormat(l)));
    AsLawful(Both(CandidatesFormat(l), Both(FactsFormat(l), TailFormat(l))), RequestFrom, RequestTo);
  }

  // ---- which requests fit ------------------------------------------------------------------------------------------

  /** Counts are 32 bits on the wire. */

  predicate PathFits(p: Path, l: Limits) {
    p.tier <= 2 && p.scope <= 4 && CountFits(|p.labels|, l.maxLabels) && CountFits(|p.reservations|, l.maxReservations)
  }

  predicate RulesFit(r: Rules, l: Limits) {
    && r.objectives != [] && CountFits(|r.objectives|, l.maxObjectives)
    && (forall o <- r.objectives :: o.kind <= 8 && o.direction <= 1)
    && r.requiredLocality != Some(0) && r.preferredLocality != Some(0) && r.requiredDomain != Some(0)
    && r.onBelow <= 1 && r.relaxation <= 2 && r.onMove <= 1 && r.onMissing <= 1 && r.onStale <= 1
  }

  predicate PolicyFits(p: Policy, l: Limits) {
    && RulesFit(p.rules, l) && |p.allowedTiers| <= 3 && (forall t <- p.allowedTiers :: t <= 2)
    && CountFits(|p.requiredLabels|, l.maxPolicyLists) && CountFits(|p.forbiddenLabels|, l.maxPolicyLists)
    && CountFits(|p.forbiddenLocalities|, l.maxPolicyLists) && CountFits(|p.forbiddenDomains|, l.maxPolicyLists)
    && CountFits(|p.affinity|, l.maxAffinity)
  }

  /** Within the limits, with enumerations in range, some objective, and no optional identity of zero. */
  predicate RequestFits(r: Request, l: Limits) {
    && CountFits(|r.paths|, l.maxPaths) && (forall p <- r.paths :: PathFits(p, l))
    && CountFits(|r.capacities|, l.maxCapacities)
    && r.qos.serviceClass <= 3 && r.qos.priority <= 3
    && CountFits(|r.evidences|, l.maxEvidences) && (forall e <- r.evidences :: e.utilization <= MAX_UTILIZATION)
    && PolicyFits(r.policy, l) && CountFits(|r.occupied|, l.maxOccupied)
    && |r.provenance.producer| <= MAX_PROVENANCE && |r.provenance.version| <= MAX_PROVENANCE
  }

  lemma RefsFit()
    ensures forall ref: Ref :: RefFormat().fits(ref)
  {
    forall ref: Ref ensures RefFormat().fits(ref) { assert RefOf([ref.id, ref.generation]) == ref; }
  }

  lemma FactsFit()
    ensures forall c: Capacity :: CapacityFormat().fits(c)
    ensures forall e: Evidence :: EvidenceFormat().fits(e) <==> e.utilization <= MAX_UTILIZATION
  {
    forall c: Capacity ensures CapacityFormat().fits(c) { assert CapacityOf([c.path, c.total, c.residual]) == c; }
  }

  lemma PathFitsFormat(p: Path, l: Limits)
    ensures PathFormat(l).fits(p) <==> PathFits(p, l)
  {
    assert PathFrom(PathTo(p)) == p;
    RefsFit();
    hide RefFormat;
  }

  lemma PolicyFitsFormat(p: Policy, l: Limits)
    ensures PolicyFormat(l).fits(p) <==> PolicyFits(p, l)
  {
    assert PolicyFrom(PolicyTo(p)) == p;
    ObjectivesFit(p, l);
    PlacesFit(p, l);
    DomainsFit(p, l);
    ChurnFit(p, l);
    hide ObjectivesFormat, PlacesFormat, DomainsFormat, ChurnFormat, ModesFormat, PolicyFrom, PolicyTo;
  }

  lemma ObjectivesFit(p: Policy, l: Limits)
    ensures ObjectivesFormat(l).fits(PolicyTo(p).0) <==>
              p.rules.objectives != [] && CountFits(|p.rules.objectives|, l.maxObjectives)
              && (forall o <- p.rules.objectives :: o.kind <= 8 && o.direction <= 1)
              && |p.allowedTiers| <= 3 && (forall t <- p.allowedTiers :: t <= 2)
              && CountFits(|p.requiredLabels|, l.maxPolicyLists) && CountFits(|p.forbiddenLabels|, l.maxPolicyLists)
  {
    ListFits(Enum(2, WIRE_MALFORMED), 3, WIRE_MALFORMED, WIRE_MALFORMED, p.allowedTiers, (t: u8) => t <= 2);
    ListFits(ObjectiveFormat(), l.maxObjectives, WIRE_MALFORMED, WIRE_MALFORMED, p.rules.objectives,
             (o: Objective) => o.kind <= 8 && o.direction <= 1);
    hide ObjectiveFormat, Enum, List;
    hide Ids;
  }

  lemma ChurnFit(p: Policy, l: Limits)
    ensures ChurnFormat().fits(PolicyTo(p).1.1.1.0) <==> p.rules.relaxation <= 2 && p.rules.onMove <= 1
    ensures ModesFormat().fits(PolicyTo(p).1.1.1.1) <==> p.rules.onMissing <= 1 && p.rules.onStale <= 1
  {
  }

  lemma PlacesFit(p: Policy, l: Limits)
    ensures PlacesFormat(l).fits(PolicyTo(p).1.0) <==>
              p.rules.requiredLocality != Some(0) && p.rules.preferredLocality != Some(0) && p.rules.requiredDomain != Some(0)
              && CountFits(|p.forbiddenLocalities|, l.maxPolicyLists) && CountFits(|p.forbiddenDomains|, l.maxPolicyLists)
  {
  }

  lemma DomainsFit(p: Policy, l: Limits)
    ensures DomainsFormat(l).fits(PolicyTo(p).1.1.0) <==> CountFits(|p.affinity|, l.maxAffinity) && p.rules.onBelow <= 1
  {
    RefsFit();
    hide RefFormat;
  }

  lemma CandidatesFit(r: Request, l: Limits)
    ensures CandidatesFormat(l).fits(RequestTo(r).0) <==>
              CountFits(|r.paths|, l.maxPaths) && (forall p <- r.paths :: PathFits(p, l)) && CountFits(|r.capacities|, l.maxCapacities)
  {
    hide PathFormat, PathFits, CapacityFormat, NameFormat, List;
    NamesFit();
    FactsFit();
    forall p: Path ensures PathFormat(l).fits(p) <==> PathFits(p, l) { PathFitsFormat(p, l); }
    ListFits(PathFormat(l), l.maxPaths, WIRE_MALFORMED, OVERSIZE_REQUEST, r.paths, (p: Path) => PathFits(p, l));
    ListFits(CapacityFormat(), l.maxCapacities, WIRE_MALFORMED, OVERSIZE_REQUEST, r.capacities, (c: Capacity) => true);
  }

  lemma NamesFit()
    ensures forall n: Name :: NameFormat().fits(n)
  {
    forall n: Name ensures NameFormat().fits(n) { assert NameOf([n.id, n.generation]) == n; }
  }

  lemma QosFit()
    ensures forall q: Qos :: QosFormat().fits(q) <==> q.serviceClass <= 3 && q.priority <= 3
  {
    forall q: Qos ensures QosFormat().fits(q) <==> q.serviceClass <= 3 && q.priority <= 3 {
      assert QosFrom(([q.id, q.generation], (q.serviceClass, (q.priority, [q.required, q.maxLatency])))) == q;
    }
  }

  lemma EvidencesFit(r: Request, l: Limits)
    ensures FactsFormat(l).fits(RequestTo(r).1.0) <==>
              r.qos.serviceClass <= 3 && r.qos.priority <= 3 && CountFits(|r.evidences|, l.maxEvidences)
              && (forall e <- r.evidences :: e.utilization <= MAX_UTILIZATION) && PolicyFits(r.policy, l)
  {
    hide PolicyFormat, PolicyFits, EvidenceFormat, NameFormat, QosFormat, List;
    NamesFit();
    FactsFit();
    QosFit();
    PolicyFitsFormat(r.policy, l);
    ListFits(EvidenceFormat(), l.maxEvidences, WIRE_MALFORMED, OVERSIZE_REQUEST, r.evidences, (e: Evidence) => e.utilization <= MAX_UTILIZATION);
  }

  lemma IncumbentsFit()
    ensures forall i: Incumbent :: IncumbentFormat().fits(i)
    ensures forall e: Expected :: ExpectedFormat().fits(e)
  {
    forall i: Incumbent ensures IncumbentFormat().fits(i) {
      assert IncumbentOf([i.id, i.generation, i.path, i.pathAuthority, i.candidates, i.capacity, i.policy, i.qos, i.epoch,
                          i.reservation.id, i.reservation.generation]) == i;
    }
    forall e: Expected ensures ExpectedFormat().fits(e) {
      assert ExpectedOf([e.path, e.candidates, e.capacity, e.policy, e.qos, e.epoch, e.evidence]) == e;
    }
  }

  lemma ProvenanceFit(p: Provenance)
    ensures ProvenanceFormat().fits(p) <==> |p.producer| <= MAX_PROVENANCE && |p.version| <= MAX_PROVENANCE
  {
    hide LE, PutU64s, ReadU64s, ReadString;
    assert I64Of(I64Bits(p.observed)) == p.observed;
    assert ProvenanceFrom((p.producer, (p.version, [p.sequence, I64Bits(p.observed)]))) == p;
  }

  lemma TailFit(r: Request, l: Limits)
    ensures TailFormat(l).fits(RequestTo(r).1.1) <==>
              CountFits(|r.occupied|, l.maxOccupied)
              && |r.provenance.producer| <= MAX_PROVENANCE && |r.provenance.version| <= MAX_PROVENANCE
  {
    IncumbentsFit();
    ProvenanceFit(r.provenance);
    hide IncumbentFormat, ExpectedFormat, ProvenanceFormat;
  }

  lemma RequestPartsBack(r: Request)
    ensures RequestFrom(RequestTo(r)) == r
  {
  }

  lemma RequestFitsFormat(r: Request, l: Limits)
    ensures RequestFormat(l).fits(r) <==> RequestFits(r, l)
  {
    hide CandidatesFormat, FactsFormat, TailFormat, PathFits, PolicyFits, RequestTo, RequestFrom;
    RequestPartsBack(r);
    CandidatesFit(r, l);
    EvidencesFit(r, l);
    TailFit(r, l);
  }

  function EncodeRequest(r: Request): seq<byte> {
    RequestFormat(Limits(0, 0, 0, 0, 0, 0, 0, 0, 0, 0, 0, 0)).write(r)
  }

  function DecodeRequest(s: seq<byte>, l: Limits): Reading<Request> {
    Decode(RequestFormat(l), s)
  }

  lemma PathBytes(l: Limits, m: Limits)
    ensures forall p: Path :: PathFormat(l).write(p) == PathFormat(m).write(p)
  {
    hide RefFormat, PathTo;
  }

  lemma PolicyBytes(p: Policy, l: Limits, m: Limits)
    ensures PolicyFormat(l).write(p) == PolicyFormat(m).write(p)
  {
    hide RefFormat, ObjectiveFormat, OptionalId, PolicyTo, Flag, Enum, ChurnFormat, ModesFormat;
  }

  lemma PartBytes(r: Request, l: Limits, m: Limits)
    ensures CandidatesFormat(l).write(RequestTo(r).0) == CandidatesFormat(m).write(RequestTo(r).0)
    ensures FactsFormat(l).write(RequestTo(r).1.0) == FactsFormat(m).write(RequestTo(r).1.0)
    ensures TailFormat(l).write(RequestTo(r).1.1) == TailFormat(m).write(RequestTo(r).1.1)
  {
    hide PathFormat, PolicyFormat, QosFormat, NameFormat, CapacityFormat, EvidenceFormat, IncumbentFormat, ExpectedFormat,
         ProvenanceFormat, LE, WriteAll, U64;
    PathBytes(l, m);
    WriteAllSame(PathFormat(l), PathFormat(m), r.paths);
    PolicyBytes(r.policy, l, m);
    assert List(PathFormat(l), l.maxPaths, WIRE_MALFORMED, OVERSIZE_REQUEST).write(r.paths)
        == List(PathFormat(m), m.maxPaths, WIRE_MALFORMED, OVERSIZE_REQUEST).write(r.paths);
  }

  /** The bytes do not depend on the limits; only what is accepted does. */
  lemma EncodingIgnoresLimits(r: Request, l: Limits)
    ensures RequestFormat(l).write(r) == EncodeRequest(r)
  {
    PartBytes(r, l, Limits(0, 0, 0, 0, 0, 0, 0, 0, 0, 0, 0, 0));
    hide CandidatesFormat, FactsFormat, TailFormat, RequestTo;
  }

  /**
   A request within the limits decodes to itself; every strict prefix and every extension of its
   encoding is refused.
   */
  lemma RequestsRoundTrip(r: Request, l: Limits)
    requires RequestFits(r, l)
    ensures DecodeRequest(EncodeRequest(r), l) == Read(r, [])
    ensures forall n :: 0 <= n < |EncodeRequest(r)| ==> DecodeRequest(EncodeRequest(r)[..n], l).Failed?
    ensures forall more :: more != [] ==> DecodeRequest(EncodeRequest(r) + more, l) == Failed(WIRE_MALFORMED)
  {
    RequestLawful(l);
    RequestFitsFormat(r, l);
    EncodingIgnoresLimits(r, l);
    hide RequestFormat, EncodeRequest, Lawful, Decode;
    DecodeExactly(RequestFormat(l), r);
  }
}
