/** What the store keeps in memory, what it keeps on disk, and how opening rebuilds one from the other. */
module Recovery {
  import opened Bytes
  import opened Crc32c
  import opened Records
  import opened Journal

  datatype Options = Options(
    repairTornTail: bool, readOnly: bool, maxRecordBytes: u64, maxJournalRecords: u64, maxTotalRecords: u64)

  /** The record bound as the journal reader applies it: narrowed to 32 bits. */
  function ReadLimit(o: Options): u32 {
    o.maxRecordBytes % 0x1_0000_0000
  }

  /** The two files; None is a file that does not exist. */
  datatype Disk = Disk(journal: Option<seq<byte>>, snapshot: Option<seq<byte>>)

  /** The in-memory indexes. */
  datatype Mem = Mem(
    placements: seq<PlacementRecord>, latest: map<u64, nat>, attempts: map<u64, AttemptRecord>,
    commits: map<u64, nat>, nextId: u64, maxSequence: u64)

  const FRESH: Mem := Mem([], map[], map[], map[], 1, 0)

  predicate WellIndexed(m: Mem) {
    && (forall f <- m.latest :: m.latest[f] < |m.placements| && m.placements[m.latest[f]].intent.flow == f)
    && (forall a <- m.commits :: m.commits[a] < |m.placements| && m.placements[m.commits[a]].intent.attempt == a && a != 0)
    && (forall a <- m.attempts :: m.attempts[a].attempt == a)
  }

  /** Identity and sequence do not matter to the indexes. */
  lemma Reindexed(m: Mem, n: Mem)
    requires n.placements == m.placements && n.latest == m.latest && n.commits == m.commits && n.attempts == m.attempts
    ensures WellIndexed(m) <==> WellIndexed(n)
  {
  }

  lemma NoZero(m: Mem)
    requires WellIndexed(m)
    ensures 0 !in m.commits
  {
  }

  function Increment(v: u64): u64 {
    (v + 1) % U64_LIMIT
  }

  // ---- index updates --------------------------------------------------------------

  /** Appends a placement and points its flow and its attempt at it. */
  function Index(m: Mem, p: PlacementRecord): (r: Mem)
    ensures WellIndexed(m) ==> WellIndexed(r)
  {
    var i := |m.placements|;
    m.(placements := m.placements + [p], latest := m.latest[p.intent.flow := i],
       commits := if p.intent.attempt != 0 then m.commits[p.intent.attempt := i] else m.commits)
  }

  function IndexAll(m: Mem, ps: seq<PlacementRecord>): (r: Mem)
    ensures WellIndexed(m) ==> WellIndexed(r)
    decreases |ps|
  {
    if ps == [] then m else IndexAll(Index(m, ps[0]), ps[1..])
  }

  function Note(m: Mem, a: AttemptRecord): (r: Mem)
    ensures WellIndexed(m) ==> WellIndexed(r)
  {
    m.(attempts := m.attempts[a.attempt := a])
  }

  function NoteAll(m: Mem, rs: seq<AttemptRecord>): (r: Mem)
    ensures r == m.(attempts := r.attempts)
    ensures WellIndexed(m) ==> WellIndexed(r)
    decreases |rs|
  {
    if rs == [] then m else NoteAll(Note(m, rs[0]), rs[1..])
  }

  // ---- the snapshot file ----------------------------------------------------------

  const SNAPSHOT_MAGIC: u32 := 0x4E53_5046
  const SNAPSHOT_END_MAGIC: u32 := 0x4553_5046

  datatype Snapshot = Snapshot(
    nextId: u64, maxSequence: u64, retired: u64, placements: seq<PlacementRecord>, attempts: seq<AttemptRecord>)

  function PlacementsBytes(ps: seq<PlacementRecord>): (b: seq<byte>)
    ensures |b| == PLACEMENT_BYTES * |ps|
  {
    if ps == [] then [] else PlacementBytes(ps[0]) + PlacementsBytes(ps[1..])
  }

  function AttemptsBytes(rs: seq<AttemptRecord>): (b: seq<byte>)
    ensures |b| == ATTEMPT_BYTES * |rs|
  {
    if rs == [] then [] else AttemptBytes(rs[0]) + AttemptsBytes(rs[1..])
  }

  /** The counts keep their 32 low bits. */
  function SnapshotPayload(s: Snapshot): (b: seq<byte>)
    ensures |b| == 32 + PLACEMENT_BYTES * |s.placements| + ATTEMPT_BYTES * |s.attempts|
  {
    PutU64s([s.nextId, s.maxSequence, s.retired]) +
    (LE(|s.placements|, 4) + (PlacementsBytes(s.placements) + (LE(|s.attempts|, 4) + AttemptsBytes(s.attempts))))
  }

  function SnapshotFile(s: Snapshot): (b: seq<byte>) {
    var payload := SnapshotPayload(s);
    var h := LE(SNAPSHOT_MAGIC, 4) + LE(STORE_FORMAT_VERSION, 4) + LE(|payload|, 4) + LE(Crc(payload), 4);
    h + payload + LE(Crc(h + payload), 4) + LE(SNAPSHOT_END_MAGIC, 4)
  }

  function ReadPlacements(s: seq<byte>, n: nat): Parsed<seq<PlacementRecord>>
    decreases n
  {
    if n == 0 then Got([], s)
    else match ReadPlacement(s)
      case Short => Short
      case Got(p, rest) =>
        match ReadPlacements(rest, n - 1)
        case Short => Short
        case Got(ps, rest') => Got([p] + ps, rest')
  }

  function ReadAttempts(s: seq<byte>, n: nat): Parsed<seq<AttemptRecord>>
    decreases n
  {
    if n == 0 then Got([], s)
    else match ReadAttempt(s)
      case Short => Short
      case Got(r, rest) =>
        match ReadAttempts(rest, n - 1)
        case Short => Short
        case Got(rs, rest') => Got([r] + rs, rest')
  }

  function ReadSnapshotPayload(payload: seq<byte>, o: Options): Result<Snapshot> {
    match ReadU64s(payload, 3) case Short => Err(STORE_CORRUPT) case Got(head, s1) =>
    match ReadU32(s1) case Short => Err(STORE_CORRUPT) case Got(placementCount, s2) =>
    if placementCount > o.maxTotalRecords then Err(STORE_CORRUPT) else
    match ReadPlacements(s2, placementCount) case Short => Err(STORE_CORRUPT) case Got(ps, s3) =>
    ReadAttemptTable(s3, Snapshot(head[0], head[1], head[2], ps, []), o)
  }

  function ReadAttemptTable(s3: seq<byte>, s: Snapshot, o: Options): Result<Snapshot> {
    match ReadU32(s3) case Short => Err(STORE_CORRUPT) case Got(attemptCount, s4) =>
    if attemptCount > o.maxTotalRecords then Err(STORE_CORRUPT) else
    match ReadAttempts(s4, attemptCount) case Short => Err(STORE_CORRUPT) case Got(rs, s5) =>
    if s5 != [] then Err(STORE_CORRUPT) else Ok(s.(attempts := rs))
  }

  /** The container checks: the trailing container checksum is stored but never compared. */
  function ReadSnapshotFile(file: seq<byte>, o: Options): Result<Snapshot> {
    if |file| < 16 then Err(STORE_CORRUPT)
    else if FromLE(file[..4]) != SNAPSHOT_MAGIC then Err(STORE_CORRUPT)
    else if FromLE(file[4..8]) != STORE_FORMAT_VERSION then Err(STORE_VERSION_UNSUPPORTED)
    else
      var length := FromLE(file[8..12]);
      if length > o.maxRecordBytes then Err(STORE_CORRUPT)
      else if |file| < 24 + length then Err(STORE_CORRUPT)
      else if FromLE(file[20 + length..24 + length]) != SNAPSHOT_END_MAGIC then Err(STORE_CORRUPT)
      else if Crc(file[16..16 + length]) != FromLE(file[12..16]) then Err(STORE_CORRUPT)
      else if |file| > 24 + length then Err(STORE_CORRUPT)
      else ReadSnapshotPayload(file[16..16 + length], o)
  }

  function FromSnapshot(s: Snapshot): (m: Mem)
    ensures WellIndexed(m)
  {
    NoteAll(IndexAll(FRESH, s.placements), s.attempts).(nextId := s.nextId, maxSequence := s.maxSequence)
  }

  // ---- replaying the journal --------------------------------------------------------

  /** One checksum-correct record applied to the memory; `covered` is the snapshot's sequence. */
  function ApplyEntry(m: Mem, covered: u64, e: Entry): Result<Mem> {
    if e.kind == RESET then
      if |e.payload| != 8 || FromLE(e.payload) != covered then Err(STORE_CORRUPT)
      else Ok(m.(maxSequence := e.sequence))
    else if e.sequence <= m.maxSequence then Ok(m)
    else if e.sequence != m.maxSequence + 1 then Err(STORE_CORRUPT)
    else if e.kind == PLACEMENT then
      match ReadPlacement(e.payload)
      case Short => Err(STORE_CORRUPT)
      case Got(p, rest) =>
        if rest != [] then Err(STORE_CORRUPT)
        else Ok(Index(m, p).(nextId := if p.id >= m.nextId then Increment(p.id) else m.nextId,
                             maxSequence := e.sequence))
    else
      match ReadAttempt(e.payload)
      case Short => Err(STORE_CORRUPT)
      case Got(a, rest) =>
        if rest != [] then Err(STORE_CORRUPT)
        else if a.attempt in m.attempts && m.attempts[a.attempt].phase != Started && a.phase == Started
        then Err(STORE_CORRUPT)
        else Ok(Note(m, a).(maxSequence := e.sequence))
  }

  function Replay(m: Mem, covered: u64, es: seq<Entry>): Result<Mem>
    decreases |es|
  {
    if es == [] then Ok(m)
    else match ApplyEntry(m, covered, es[0])
      case Err(code) => Err(code)
      case Ok(m') => Replay(m', covered, es[1..])
  }

  lemma {:induction false} ReplayAppend(m: Mem, covered: u64, es: seq<Entry>, more: seq<Entry>)
    ensures Replay(m, covered, es + more) ==
            match Replay(m, covered, es) case Err(code) => Err(code) case Ok(m') => Replay(m', covered, more)
    decreases |es|
  {
    hide ApplyEntry;
    if es == [] {
      assert es + more == more;
    } else {
      assert (es + more)[0] == es[0] && (es + more)[1..] == es[1..] + more;
      match ApplyEntry(m, covered, es[0]) {
        case Err(_) =>
        case Ok(m') => ReplayAppend(m', covered, es[1..], more);
      }
    }
  }

  // ---- opening ------------------------------------------------------------------------

  /** A store that opened: its memory, the journal length it counts from, the retired attempts it reports. */
  datatype Session = Session(mem: Mem, journalRecords: nat, retired: u64)

  datatype Opening = Opening(disk: Disk, result: Result<Session>)

  ghost function LoadJournal(o: Options, m: Mem, disk: Disk): Opening {
    match disk.journal
    case None => Opening(disk, Ok(Session(m, 0, 0)))
    case Some(bytes) =>
      var scanned := Scan(bytes, ReadLimit(o));
      match Replay(m, m.maxSequence, scanned.entries)
      case Err(code) => Opening(disk, Err(code))
      case Ok(m') =>
        var session := Session(m', |scanned.entries|, 0);
        if scanned.torn == [] then Opening(disk, Ok(session))
        else if LaterRecord(scanned.torn, ReadLimit(o)) then Opening(disk, Err(STORE_CORRUPT))
        else if o.readOnly then Opening(disk, Ok(session))
        else if !o.repairTornTail then Opening(disk, Err(STORE_TRUNCATED_TAIL))
        else Opening(disk.(journal := Some(bytes[..|bytes| - |scanned.torn|])), Ok(session))
  }

  /** An attempt that committed counts as committed even when its terminal record was never written. */
  function SettleAttempts(m: Mem): Mem {
    m.(attempts := map k | k in m.attempts ::
         if m.attempts[k].phase == Started && k in m.commits then m.attempts[k].(phase := Committed) else m.attempts[k])
  }

  /** An acknowledged attempt with no durable placement. */
  predicate OrphanCommit(m: Mem) {
    exists k <- m.attempts :: m.attempts[k].phase == Committed && k !in m.commits
  }

  /** Opening for append creates the journal file; an orphan commit is found last. */
  ghost function Open(o: Options, disk: Disk): Opening {
    var base: Result<(Mem, u64)> :=
      match disk.snapshot
      case None => Ok((FRESH, 0))
      case Some(file) =>
        match ReadSnapshotFile(file, o)
        case Err(code) => Err(code)
        case Ok(s) => Ok((FromSnapshot(s), s.retired));
    match base
    case Err(code) => Opening(disk, Err(code))
    case Ok((m, retired)) =>
      var loaded := LoadJournal(o, m, disk);
      match loaded.result
      case Err(_) => loaded
      case Ok(session) =>
        var disk' := if o.readOnly || loaded.disk.journal.Some? then loaded.disk
                     else loaded.disk.(journal := Some([]));
        if OrphanCommit(session.mem) then Opening(disk', Err(STORE_CORRUPT))
        else Opening(disk', Ok(session.(mem := SettleAttempts(session.mem), retired := retired)))
  }

  // ---- reading back what was written ---------------------------------------------------

  lemma {:induction false} ReadPlacementsBack(ps: seq<PlacementRecord>, rest: seq<byte>)
    requires forall p <- ps :: p.requiresRevalidation
    ensures ReadPlacements(PlacementsBytes(ps) + rest, |ps|) == Got(ps, rest)
    decreases |ps|
  {
    hide PlacementBytes, ReadPlacement;
    if ps == [] {
      assert PlacementsBytes(ps) + rest == rest;
    } else {
      var tail := PlacementsBytes(ps[1..]) + rest;
      assert PlacementsBytes(ps) + rest == PlacementBytes(ps[0]) + tail;
      ReadPlacementBack(ps[0], tail);
      assert Durable(ps[0]) == ps[0];
      ReadPlacementsBack(ps[1..], rest);
      assert [ps[0]] + ps[1..] == ps;
    }
  }

  lemma {:induction false} ReadAttemptsBack(rs: seq<AttemptRecord>, rest: seq<byte>)
    ensures ReadAttempts(AttemptsBytes(rs) + rest, |rs|) == Got(rs, rest)
    decreases |rs|
  {
    hide AttemptBytes, ReadAttempt;
    if rs == [] {
      assert AttemptsBytes(rs) + rest == rest;
    } else {
      var tail := AttemptsBytes(rs[1..]) + rest;
      assert AttemptsBytes(rs) + rest == AttemptBytes(rs[0]) + tail;
      ReadAttemptBack(rs[0], tail);
      ReadAttemptsBack(rs[1..], rest);
      assert [rs[0]] + rs[1..] == rs;
    }
  }

  predicate CountsFit(s: Snapshot, o: Options) {
    |s.placements| <= o.maxTotalRecords && |s.attempts| <= o.maxTotalRecords
  }

  lemma ReadSnapshotPayloadBack(s: Snapshot, o: Options)
    requires |SnapshotPayload(s)| < 0x1_0000_0000
    requires forall p <- s.placements :: p.requiresRevalidation
    ensures ReadSnapshotPayload(SnapshotPayload(s), o) == if CountsFit(s, o) then Ok(s) else Err(STORE_CORRUPT)
  {
    hide LE, PutU64s, ReadU64s, ReadU32, PlacementsBytes, AttemptsBytes, ReadPlacements, ReadAttempts;
    var head := [s.nextId, s.maxSequence, s.retired];
    var s4 := AttemptsBytes(s.attempts);
    var s3 := LE(|s.attempts|, 4) + s4;
    var s2 := PlacementsBytes(s.placements) + s3;
    var s1 := LE(|s.placements|, 4) + s2;
    ReadU64sBack(head, s1);
    ReadU32Back(|s.placements|, s2);
    ReadPlacementsBack(s.placements, s3);
    ReadU32Back(|s.attempts|, s4);
    ReadAttemptsBack(s.attempts, []);
    assert s4 + [] == s4;
  }

  /** The payload is within the bound, and its length within the 32 bits that are kept of it. */
  predicate SnapshotReads(s: Snapshot, o: Options) {
    |SnapshotPayload(s)| <= o.maxRecordBytes && |SnapshotPayload(s)| < 0x1_0000_0000 && CountsFit(s, o)
  }

  /** A written snapshot reads back whole, or is refused: never in part. */
  lemma ReadSnapshotFileBack(s: Snapshot, o: Options)
    requires forall p <- s.placements :: p.requiresRevalidation
    ensures ReadSnapshotFile(SnapshotFile(s), o) == if SnapshotReads(s, o) then Ok(s) else Err(STORE_CORRUPT)
  {
    hide LE, FromLE, Crc, SnapshotPayload, ReadSnapshotPayload, CountsFit;
    var payload := SnapshotPayload(s);
    var n := |payload|;
    var h := LE(SNAPSHOT_MAGIC, 4) + LE(STORE_FORMAT_VERSION, 4) + LE(n, 4) + LE(Crc(payload), 4);
    var file := SnapshotFile(s);
    Widths();
    FromLEInvertsLE(SNAPSHOT_MAGIC, 4);
    FromLEInvertsLE(STORE_FORMAT_VERSION, 4);
    LowDigitsBack(n, 4);
    FromLEInvertsLE(Crc(payload), 4);
    FromLEInvertsLE(SNAPSHOT_END_MAGIC, 4);
    assert file[..4] == LE(SNAPSHOT_MAGIC, 4) && file[4..8] == LE(STORE_FORMAT_VERSION, 4);
    assert file[8..12] == LE(n, 4) && file[12..16] == LE(Crc(payload), 4);
    assert |file| == 24 + n && FromLE(file[8..12]) == n % 0x1_0000_0000;
    if n < 0x1_0000_0000 {
      assert file[16..16 + n] == payload && file[20 + n..24 + n] == LE(SNAPSHOT_END_MAGIC, 4);
      ReadSnapshotPayloadBack(s, o);
    } else {
      assert FromLE(file[8..12]) < n;
    }
  }
}
