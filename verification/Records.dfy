/** Durable attempt and placement records and their codecs. */
module Records {
  import opened Bytes

  // ---- status codes ---------------------------------------------------------------

  predicate IsKnownStatusCode(c: u16) {
    || c == 0 || 10 <= c <= 19 || 30 <= c <= 37 || 50 <= c <= 53 || 70 <= c <= 74
    || 90 <= c <= 99 || 110 <= c <= 116 || 130 <= c <= 134 || 150 <= c <= 157
  }

  type StatusCode = c: u16 | IsKnownStatusCode(c) witness 0

  datatype Result<+T> = Ok(value: T) | Err(code: StatusCode) {
    predicate IsFailure() { Err? }
    function PropagateFailure<U>(): Result<U>
      requires Err?
    {
      Err(code)
    }
    function Extract(): T
      requires Ok?
    {
      value
    }
  }

  const OK: StatusCode := 0
  const OVERSIZE_REQUEST: StatusCode := 11
  const INCONSISTENT_AUTHORITY_GENERATION: StatusCode := 15
  const STALE_AUTHORITY_GENERATION: StatusCode := 30
  const SHUTTING_DOWN: StatusCode := 91
  const FENCED_STALE_EPOCH: StatusCode := 92
  const FENCED_STALE_INCARNATION: StatusCode := 93
  const DUPLICATE_ATTEMPT_CONFLICT: StatusCode := 94
  const CANCELLED: StatusCode := 95
  const ALREADY_COMMITTED: StatusCode := 96
  const NOT_RUNNING: StatusCode := 99
  const STORE_CORRUPT: StatusCode := 111
  const STORE_TRUNCATED_TAIL: StatusCode := 112
  const STORE_VERSION_UNSUPPORTED: StatusCode := 113
  const STORE_GROWTH_EXCEEDED: StatusCode := 115
  const INVALID_ARGUMENT: StatusCode := 152
  const ALREADY_EXISTS: StatusCode := 154
  const ARITHMETIC_OVERFLOW: StatusCode := 156
  const INTERNAL_INVARIANT_VIOLATION: StatusCode := 157

  // ---- records --------------------------------------------------------------------

  datatype Phase = Started | Committed | Rejected | Cancelled | Fenced

  datatype Delta = NoIncumbent | Kept | Moved | ReplacedStale

  datatype AttemptRecord = AttemptRecord(
    attempt: u64, incarnation: u64, epoch: u64, flow: u64, phase: Phase, code: StatusCode,
    digestHi: u64, digestLo: u64, sequence: u64, observedUnixNanos: i64)

  datatype Intent = Intent(
    flow: u64, flowGeneration: u64, path: u64, pathAuthority: u64,
    candidateSet: u64, candidateSetGeneration: u64, capacity: u64, capacityGeneration: u64,
    policy: u64, policyGeneration: u64, qos: u64, qosGeneration: u64,
    evidence: u64, evidenceGeneration: u64, fabricEpoch: u64,
    reservation: u64, reservationGeneration: u64, attempt: u64, revalidateAfterNanos: u64,
    digestHi: u64, digestLo: u64)

  datatype PlacementRecord = PlacementRecord(
    id: u64, generation: u64, intent: Intent, delta: Delta, digestHi: u64, digestLo: u64,
    committedBy: u64, commitEpoch: u64, sequence: u64, supersedesGeneration: u64,
    commitUnixNanos: i64, requiresRevalidation: bool)

  const ATTEMPT_BYTES := 67
  const PLACEMENT_BYTES := 241

  /** Intents compare by everything but their digest. */
  predicate SameIntent(a: Intent, b: Intent) {
    a.(digestHi := 0, digestLo := 0) == b.(digestHi := 0, digestLo := 0)
  }

  /** The record as recovery sees it: the revalidation mark is not stored and always set. */
  function Durable(p: PlacementRecord): PlacementRecord {
    p.(requiresRevalidation := true)
  }

  // ---- enumerations ---------------------------------------------------------------

  function PhaseByte(p: Phase): (b: u8)
    ensures b <= 4 && PhaseOf(b) == p
  {
    match p case Started => 0 case Committed => 1 case Rejected => 2 case Cancelled => 3 case Fenced => 4
  }

  function PhaseOf(b: u8): Phase
    requires b <= 4
  {
    if b == 0 then Started else if b == 1 then Committed else if b == 2 then Rejected
    else if b == 3 then Cancelled else Fenced
  }

  function DeltaByte(d: Delta): (b: u8)
    ensures b <= 3 && DeltaOf(b) == d
  {
    match d case NoIncumbent => 0 case Kept => 1 case Moved => 2 case ReplacedStale => 3
  }

  function DeltaOf(b: u8): Delta
    requires b <= 3
  {
    if b == 0 then NoIncumbent else if b == 1 then Kept else if b == 2 then Moved else ReplacedStale
  }

  // ---- layouts --------------------------------------------------------------------

  function IntentFields(i: Intent): (f: seq<u64>)
    ensures |f| == 21
  {
    [i.flow, i.flowGeneration, i.path, i.pathAuthority, i.candidateSet, i.candidateSetGeneration,
     i.capacity, i.capacityGeneration, i.policy, i.policyGeneration, i.qos, i.qosGeneration,
     i.evidence, i.evidenceGeneration, i.fabricEpoch, i.reservation, i.reservationGeneration,
     i.attempt, i.revalidateAfterNanos, i.digestHi, i.digestLo]
  }

  function IntentOf(f: seq<u64>): Intent
    requires |f| == 21
  {
    Intent(f[0], f[1], f[2], f[3], f[4], f[5], f[6], f[7], f[8], f[9], f[10], f[11], f[12],
           f[13], f[14], f[15], f[16], f[17], f[18], f[19], f[20])
  }

  function AttemptBytes(v: AttemptRecord): (b: seq<byte>)
    ensures |b| == ATTEMPT_BYTES
  {
    PutU64s([v.attempt, v.incarnation, v.epoch, v.flow]) +
    ([PhaseByte(v.phase)] +
     (LE(v.code, 2) + PutU64s([v.digestHi, v.digestLo, v.sequence, I64Bits(v.observedUnixNanos)])))
  }

  function PlacementBytes(v: PlacementRecord): (b: seq<byte>)
    ensures |b| == PLACEMENT_BYTES
  {
    PutU64s([v.id, v.generation] + IntentFields(v.intent)) +
    ([DeltaByte(v.delta)] +
     PutU64s([v.digestHi, v.digestLo, v.committedBy, v.commitEpoch, v.sequence, v.supersedesGeneration,
              I64Bits(v.commitUnixNanos)]))
  }

  /** Decoding consumes one record and leaves what follows it; any failure is corruption. */
  function ReadAttempt(s: seq<byte>): Parsed<AttemptRecord> {
    match ReadU64s(s, 4) case Short => Short case Got(a, s1) =>
    match ReadU8(s1) case Short => Short case Got(phase, s2) =>
    if phase > 4 then Short else
    match ReadU16(s2) case Short => Short case Got(code, s3) =>
    if !IsKnownStatusCode(code) then Short else
    match ReadU64s(s3, 4) case Short => Short case Got(b, s4) =>
    Got(AttemptRecord(a[0], a[1], a[2], a[3], PhaseOf(phase), code, b[0], b[1], b[2], I64Of(b[3])), s4)
  }

  function ReadPlacement(s: seq<byte>): Parsed<PlacementRecord> {
    match ReadU64s(s, 23) case Short => Short case Got(a, s1) =>
    match ReadU8(s1) case Short => Short case Got(delta, s2) =>
    if delta > 3 then Short else
    match ReadU64s(s2, 7) case Short => Short case Got(b, s3) =>
    Got(PlacementRecord(a[0], a[1], IntentOf(a[2..]), DeltaOf(delta), b[0], b[1], b[2], b[3], b[4], b[5],
                        I64Of(b[6]), true), s3)
  }

  // ---- round trips ----------------------------------------------------------------

  lemma ReadAttemptBack(v: AttemptRecord, rest: seq<byte>)
    ensures ReadAttempt(AttemptBytes(v) + rest) == Got(v, rest)
  {
    hide LE, FromLE, PutU64s, ReadU64s, ReadU16;
    var a := [v.attempt, v.incarnation, v.epoch, v.flow];
    var b := [v.digestHi, v.digestLo, v.sequence, I64Bits(v.observedUnixNanos)];
    var s3 := PutU64s(b) + rest;
    var s2 := LE(v.code, 2) + s3;
    var s1 := [PhaseByte(v.phase)] + s2;
    assert AttemptBytes(v) + rest == PutU64s(a) + s1;
    ReadU64sBack(a, s1);
    assert s1[1..] == s2;
    ReadU16Back(v.code, s3);
    ReadU64sBack(b, rest);
  }

  lemma ReadPlacementBack(v: PlacementRecord, rest: seq<byte>)
    ensures ReadPlacement(PlacementBytes(v) + rest) == Got(Durable(v), rest)
  {
    hide LE, FromLE, PutU64s, ReadU64s;
    var a := [v.id, v.generation] + IntentFields(v.intent);
    var b := [v.digestHi, v.digestLo, v.committedBy, v.commitEpoch, v.sequence, v.supersedesGeneration,
              I64Bits(v.commitUnixNanos)];
    var s2 := PutU64s(b) + rest;
    var s1 := [DeltaByte(v.delta)] + s2;
    assert PlacementBytes(v) + rest == PutU64s(a) + s1;
    ReadU64sBack(a, s1);
    assert s1[1..] == s2;
    ReadU64sBack(b, rest);
    assert a[2..] == IntentFields(v.intent);
  }

  lemma ReadU64sStep(s: seq<byte>, n: nat)
    requires n > 0 && |s| >= 8 * n
    ensures FromLE(s[..8]) < U64_LIMIT
    ensures ReadU64s(s, n).value == [FromLE(s[..8])] + ReadU64s(s[8..], n - 1).value
  {
    hide LE, FromLE;
    Narrow(s[..8]);
  }

  lemma PutU64sCons(v: u64, vs: seq<u64>)
    ensures PutU64s([v] + vs) == LE(v, 8) + PutU64s(vs)
  {
    hide LE;
    assert ([v] + vs)[1..] == vs;
  }

  lemma {:induction false} PutU64sBack(s: seq<byte>, n: nat)
    requires |s| >= 8 * n
    ensures PutU64s(ReadU64s(s, n).value) + s[8 * n..] == s
  {
    hide LE, FromLE, ReadU64s, ReadU64;
    if n == 0 {
      assert ReadU64s(s, 0).value == [];
    } else {
      ReadU64sStep(s, n);
      var v: u64, vs := FromLE(s[..8]), ReadU64s(s[8..], n - 1).value;
      PutU64sCons(v, vs);
      LEInvertsFromLE(s[..8]);
      PutU64sBack(s[8..], n - 1);
      assert s[8..][8 * (n - 1)..] == s[8 * n..];
      assert (s[..8] + PutU64s(vs)) + s[8 * n..] == s[..8] + (PutU64s(vs) + s[8 * n..]);
    }
  }

  /** Decoding accepts nothing but encodings, so no two byte strings denote one record. */
  lemma AttemptBytesBack(s: seq<byte>)
    requires ReadAttempt(s).Got?
    ensures AttemptBytes(ReadAttempt(s).value) + ReadAttempt(s).rest == s
  {
    hide LE, FromLE, PutU64s, ReadU64s;
    PutU64sBack(s, 4);
    var a := ReadU64s(s, 4);
    var v := ReadAttempt(s).value;
    assert a.value == [v.attempt, v.incarnation, v.epoch, v.flow];
    var s2 := a.rest[1..];
    LEInvertsFromLE(s2[..2]);
    var s3 := ReadU16(s2).rest;
    PutU64sBack(s3, 4);
    assert ReadU64s(s3, 4).value == [v.digestHi, v.digestLo, v.sequence, I64Bits(v.observedUnixNanos)];
    var tail := PutU64s(ReadU64s(s3, 4).value);
    assert AttemptBytes(v) + ReadAttempt(s).rest
        == PutU64s(a.value) + ([PhaseByte(v.phase)] + (LE(v.code, 2) + (tail + ReadAttempt(s).rest)));
  }

  lemma PlacementBytesBack(s: seq<byte>)
    requires ReadPlacement(s).Got?
    ensures PlacementBytes(ReadPlacement(s).value) + ReadPlacement(s).rest == s
  {
    hide LE, FromLE, PutU64s, ReadU64s;
    PutU64sBack(s, 23);
    var a := ReadU64s(s, 23);
    var v := ReadPlacement(s).value;
    assert a.value[2..] == IntentFields(v.intent);
    assert a.value == [v.id, v.generation] + IntentFields(v.intent);
    var s2 := a.rest[1..];
    PutU64sBack(s2, 7);
    assert ReadU64s(s2, 7).value
        == [v.digestHi, v.digestLo, v.committedBy, v.commitEpoch, v.sequence, v.supersedesGeneration, I64Bits(v.commitUnixNanos)];
    var tail := PutU64s(ReadU64s(s2, 7).value);
    assert PlacementBytes(v) + ReadPlacement(s).rest
        == PutU64s(a.value) + ([DeltaByte(v.delta)] + (tail + ReadPlacement(s).rest));
  }

  lemma PutU64sSnoc(vs: seq<u64>, last: u64)
    ensures PutU64s(vs + [last]) == PutU64s(vs) + LE(last, 8)
  {
    PutU64sAppend(vs, [last]);
    assert PutU64s([last]) == LE(last, 8) + PutU64s([]);
  }

  // ---- the encoders and decoders over a writer and a reader ------------------------

  method EncodeAttemptRecord(v: AttemptRecord, w: ByteWriter)
    modifies w
    ensures w.data == old(w.data) + AttemptBytes(v)
  {
    hide LE, PutU64s;
    w.U64s([v.attempt, v.incarnation, v.epoch, v.flow]);
    w.U8(PhaseByte(v.phase));
    w.U16(v.code);
    w.U64s([v.digestHi, v.digestLo, v.sequence]);
    w.I64(v.observedUnixNanos);
    PutU64sSnoc([v.digestHi, v.digestLo, v.sequence], I64Bits(v.observedUnixNanos));
    assert [v.digestHi, v.digestLo, v.sequence] + [I64Bits(v.observedUnixNanos)]
        == [v.digestHi, v.digestLo, v.sequence, I64Bits(v.observedUnixNanos)];
  }

  method DecodeAttemptRecord(r: ByteReader) returns (ok: bool, v: AttemptRecord)
    requires r.Valid()
    modifies r
    ensures r.Valid() && ok == ReadAttempt(old(r.Rest())).Got?
    ensures ok ==> ReadAttempt(old(r.Rest())) == Got(v, r.Rest())
  {
    v := AttemptRecord(0, 0, 0, 0, Started, OK, 0, 0, 0, 0);
    var a, phase, code, b;
    ok, a := r.U64s(4);
    if !ok { return; }
    ok, phase := r.U8();
    if !ok { return; }
    if phase > 4 { ok := false; return; }
    ok, code := r.U16();
    if !ok { return; }
    if !IsKnownStatusCode(code) { ok := false; return; }
    ok, b := r.U64s(4);
    if !ok { return; }
    v := AttemptRecord(a[0], a[1], a[2], a[3], PhaseOf(phase), code, b[0], b[1], b[2], I64Of(b[3]));
  }

  method EncodePlacementRecord(v: PlacementRecord, w: ByteWriter)
    modifies w
    ensures w.data == old(w.data) + PlacementBytes(v)
  {
    hide LE, PutU64s;
    w.U64s([v.id, v.generation]);
    w.U64s(IntentFields(v.intent));
    w.U8(DeltaByte(v.delta));
    w.U64s([v.digestHi, v.digestLo, v.committedBy, v.commitEpoch, v.sequence, v.supersedesGeneration]);
    w.I64(v.commitUnixNanos);
    var last := I64Bits(v.commitUnixNanos);
    PutU64sAppend([v.id, v.generation], IntentFields(v.intent));
    var front := [v.digestHi, v.digestLo, v.committedBy, v.commitEpoch, v.sequence, v.supersedesGeneration];
    PutU64sSnoc(front, last);
    assert front + [last]
        == [v.digestHi, v.digestLo, v.committedBy, v.commitEpoch, v.sequence, v.supersedesGeneration, last];
  }

  method DecodePlacementRecord(r: ByteReader) returns (ok: bool, v: PlacementRecord)
    requires r.Valid()
    modifies r
    ensures r.Valid() && ok == ReadPlacement(old(r.Rest())).Got?
    ensures ok ==> ReadPlacement(old(r.Rest())) == Got(v, r.Rest())
  {
    v := PlacementRecord(0, 0, IntentOf(seq(21, _ => 0)), NoIncumbent, 0, 0, 0, 0, 0, 0, 0, true);
    var a, delta, b;
    ok, a := r.U64s(23);
    if !ok { return; }
    ok, delta := r.U8();
    if !ok { return; }
    if delta > 3 { ok := false; return; }
    ok, b := r.U64s(7);
    if !ok { return; }
    v := PlacementRecord(a[0], a[1], IntentOf(a[2..]), DeltaOf(delta), b[0], b[1], b[2], b[3], b[4], b[5],
                         I64Of(b[6]), true);
  }
}
