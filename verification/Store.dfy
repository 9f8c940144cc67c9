/** The store itself: files and indexes updated in place, each method held to its specification. */
module Store {
  import opened Bytes
  import opened Crc32c
  import opened Ordered
  import opened Records
  import opened Journal
  import opened Recovery
  import opened StoreOps
  import StoreRuns

  // ---- folding from the right, as the loops do -------------------------------------------------

  lemma {:induction false} IndexAllSnoc(m: Mem, ps: seq<PlacementRecord>, p: PlacementRecord)
    ensures IndexAll(m, ps + [p]) == Index(IndexAll(m, ps), p)
    decreases |ps|
  {
    hide Index;
    if ps == [] {
      assert ps + [p] == [p];
      assert IndexAll(m, [p]) == IndexAll(Index(m, p), [p][1..]);
    } else {
      assert (ps + [p])[0] == ps[0] && (ps + [p])[1..] == ps[1..] + [p];
      IndexAllSnoc(Index(m, ps[0]), ps[1..], p);
    }
  }

  lemma {:induction false} NoteAllSnoc(m: Mem, rs: seq<AttemptRecord>, r: AttemptRecord)
    ensures NoteAll(m, rs + [r]) == Note(NoteAll(m, rs), r)
    decreases |rs|
  {
    hide Note;
    if rs == [] {
      assert rs + [r] == [r];
      assert NoteAll(m, [r]) == NoteAll(Note(m, r), [r][1..]);
    } else {
      assert (rs + [r])[0] == rs[0] && (rs + [r])[1..] == rs[1..] + [r];
      NoteAllSnoc(Note(m, rs[0]), rs[1..], r);
    }
  }

  lemma {:induction false} PlacementsBytesSnoc(ps: seq<PlacementRecord>, p: PlacementRecord)
    ensures PlacementsBytes(ps + [p]) == PlacementsBytes(ps) + PlacementBytes(p)
    decreases |ps|
  {
    hide PlacementBytes;
    if ps == [] {
      assert ps + [p] == [p];
      assert PlacementsBytes([p]) == PlacementBytes(p) + PlacementsBytes([p][1..]);
    } else {
      assert (ps + [p])[0] == ps[0] && (ps + [p])[1..] == ps[1..] + [p];
      PlacementsBytesSnoc(ps[1..], p);
    }
  }

  lemma {:induction false} AttemptsBytesSnoc(rs: seq<AttemptRecord>, r: AttemptRecord)
    ensures AttemptsBytes(rs + [r]) == AttemptsBytes(rs) + AttemptBytes(r)
    decreases |rs|
  {
    hide AttemptBytes;
    if rs == [] {
      assert rs + [r] == [r];
      assert AttemptsBytes([r]) == AttemptBytes(r) + AttemptsBytes([r][1..]);
    } else {
      assert (rs + [r])[0] == rs[0] && (rs + [r])[1..] == rs[1..] + [r];
      AttemptsBytesSnoc(rs[1..], r);
    }
  }

  lemma {:induction false} NoteAllFrame(m: Mem, rs: seq<AttemptRecord>, nextId: u64, maxSequence: u64)
    ensures NoteAll(m.(nextId := nextId, maxSequence := maxSequence), rs)
         == NoteAll(m, rs).(nextId := nextId, maxSequence := maxSequence)
    decreases |rs|
  {
    if rs != [] {
      NoteAllFrame(Note(m, rs[0]), rs[1..], nextId, maxSequence);
    }
  }

  function Extended<T>(front: seq<T>, p: Parsed<seq<T>>): Parsed<seq<T>> {
    match p case Short => Short case Got(v, rest) => Got(front + v, rest)
  }

  lemma ExtendedByNone<T>(p: Parsed<seq<T>>)
    ensures Extended([], p) == p
  {
    assert p.Got? ==> [] + p.value == p.value;
  }

  lemma ExtendedByAll<T>(front: seq<T>, rest: seq<byte>)
    ensures Extended(front, Got([], rest)) == Got(front, rest)
  {
    assert front + [] == front;
  }

  lemma PlacementsStep(ps: seq<PlacementRecord>, s: seq<byte>, n: nat)
    requires n > 0
    ensures Extended(ps, ReadPlacements(s, n)) ==
              if ReadPlacement(s).Short? then Short
              else Extended(ps + [ReadPlacement(s).value], ReadPlacements(ReadPlacement(s).rest, n - 1))
  {
    hide ReadPlacement;
    if ReadPlacement(s).Got? {
      var v, tail := ReadPlacement(s).value, ReadPlacements(ReadPlacement(s).rest, n - 1);
      assert tail.Got? ==> ps + ([v] + tail.value) == (ps + [v]) + tail.value;
    }
  }

  lemma AttemptsStep(rs: seq<AttemptRecord>, s: seq<byte>, n: nat)
    requires n > 0
    ensures Extended(rs, ReadAttempts(s, n)) ==
              if ReadAttempt(s).Short? then Short
              else Extended(rs + [ReadAttempt(s).value], ReadAttempts(ReadAttempt(s).rest, n - 1))
  {
    hide ReadAttempt;
    if ReadAttempt(s).Got? {
      var v, tail := ReadAttempt(s).value, ReadAttempts(ReadAttempt(s).rest, n - 1);
      assert tail.Got? ==> rs + ([v] + tail.value) == (rs + [v]) + tail.value;
    }
  }

  /** A payload that is one record and nothing more. */
  method DecodePlacement(payload: seq<byte>) returns (ok: bool, record: PlacementRecord)
    ensures ok == (ReadPlacement(payload).Got? && ReadPlacement(payload).rest == [])
    ensures ok ==> ReadPlacement(payload) == Got(record, [])
  {
    hide ReadPlacement;
    var reader := new ByteReader(payload);
    assert reader.Rest() == payload;
    ok, record := DecodePlacementRecord(reader);
    assert |reader.Rest()| == |reader.data| - reader.offset;
    if reader.offset != |reader.data| { ok := false; }
  }

  method DecodeAttempt(payload: seq<byte>) returns (ok: bool, record: AttemptRecord)
    ensures ok == (ReadAttempt(payload).Got? && ReadAttempt(payload).rest == [])
    ensures ok ==> ReadAttempt(payload) == Got(record, [])
  {
    hide ReadAttempt;
    var reader := new ByteReader(payload);
    assert reader.Rest() == payload;
    ok, record := DecodeAttemptRecord(reader);
    assert |reader.Rest()| == |reader.data| - reader.offset;
    if reader.offset != |reader.data| { ok := false; }
  }

  // ---- the store ----------------------------------------------------------------------------------

  class PlacementStore {
    const options: Options
    var files: Disk
    var placements: seq<PlacementRecord>
    var latest: map<u64, nat>
    var attempts: map<u64, AttemptRecord>
    var commits: map<u64, nat>
    var nextId: u64
    var maxSequence: u64
    var journalRecords: nat
    var retired: u64

    ghost function Memory(): Mem reads this {
      Mem(placements, latest, attempts, commits, nextId, maxSequence)
    }

    ghost function State(): Session reads this { Session(Memory(), journalRecords, retired) }

    ghost predicate Valid() reads this { WellIndexed(Memory()) }

    constructor (options: Options, files: Disk)
      ensures this.options == options && this.files == files && State() == Session(FRESH, 0, 0)
    {
      this.options := options;
      this.files := files;
      placements, latest, attempts, commits, nextId, maxSequence := [], map[], map[], map[], 1, 0;
      journalRecords, retired := 0, 0;
    }

    // ---- loading ------------------------------------------------------------------------------

    method IndexPlacement(p: PlacementRecord)
      modifies this`placements, this`latest, this`commits
      ensures Memory() == Index(old(Memory()), p)
    {
      var index := |placements|;
      placements := placements + [p];
      latest := latest[p.intent.flow := index];
      if p.intent.attempt != 0 { commits := commits[p.intent.attempt := index]; }
    }

    method LoadPlacements(reader: ByteReader, count: nat) returns (ok: bool, ghost ps: seq<PlacementRecord>)
      requires reader.Valid()
      modifies this, reader
      ensures reader.Valid() && files == old(files)
      ensures ok == ReadPlacements(old(reader.Rest()), count).Got?
      ensures ok ==> ReadPlacements(old(reader.Rest()), count) == Got(ps, reader.Rest())
      ensures ok ==> Memory() == IndexAll(old(Memory()), ps)
      ensures journalRecords == old(journalRecords) && retired == old(retired)
    {
      hide ReadPlacement, Index, WellIndexed, Extended;
      ok, ps := true, [];
      ghost var start := reader.Rest();
      var i := 0;
      ExtendedByNone(ReadPlacements(start, count));
      while i < count
        invariant 0 <= i <= count && reader.Valid() && ok && files == old(files)
        invariant Memory() == IndexAll(old(Memory()), ps)
        invariant journalRecords == old(journalRecords) && retired == old(retired)
        invariant ReadPlacements(start, count) == Extended(ps, ReadPlacements(reader.Rest(), count - i))
      {
        var record;
        PlacementsStep(ps, reader.Rest(), count - i);
        ok, record := DecodePlacementRecord(reader);
        if !ok { return; }
        IndexAllSnoc(old(Memory()), ps, record);
        IndexPlacement(record);
        ps := ps + [record];
        i := i + 1;
      }
      ExtendedByAll(ps, reader.Rest());
    }

    method NoteAttempt(a: AttemptRecord)
      modifies this`attempts
      ensures Memory() == Note(old(Memory()), a)
    {
      attempts := attempts[a.attempt := a];
    }

    method LoadAttempts(reader: ByteReader, count: nat) returns (ok: bool, ghost rs: seq<AttemptRecord>)
      requires reader.Valid()
      modifies this, reader
      ensures reader.Valid() && files == old(files)
      ensures ok == ReadAttempts(old(reader.Rest()), count).Got?
      ensures ok ==> ReadAttempts(old(reader.Rest()), count) == Got(rs, reader.Rest())
      ensures ok ==> Memory() == NoteAll(old(Memory()), rs)
      ensures journalRecords == old(journalRecords) && retired == old(retired)
    {
      hide ReadAttempt, Note, WellIndexed, Extended;
      ok, rs := true, [];
      ghost var start := reader.Rest();
      var i := 0;
      ExtendedByNone(ReadAttempts(start, count));
      while i < count
        invariant 0 <= i <= count && reader.Valid() && ok && files == old(files)
        invariant Memory() == NoteAll(old(Memory()), rs)
        invariant journalRecords == old(journalRecords) && retired == old(retired)
        invariant ReadAttempts(start, count) == Extended(rs, ReadAttempts(reader.Rest(), count - i))
      {
        var record;
        AttemptsStep(rs, reader.Rest(), count - i);
        ok, record := DecodeAttemptRecord(reader);
        if !ok { return; }
        NoteAllSnoc(old(Memory()), rs, record);
        NoteAttempt(record);
        rs := rs + [record];
        i := i + 1;
      }
      ExtendedByAll(rs, reader.Rest());
    }

    /** Decodes a checksum-correct snapshot payload into an empty store. */
    method LoadPayload(reader: ByteReader) returns (code: StatusCode)
      requires Memory() == FRESH && journalRecords == 0 && reader.Valid()
      modifies this, reader
      ensures files == old(files) && journalRecords == 0
      ensures var r := ReadSnapshotPayload(old(reader.Rest()), options);
              && (r.Err? ==> code == r.code && code != OK)
              && (r.Ok? ==> code == OK && Memory() == FromSnapshot(r.value) && retired == r.value.retired)
    {
      hide ReadPlacements, ReadAttemptTable, ReadU64s, ReadU32, IndexAll, FromSnapshot, WellIndexed;
      code := STORE_CORRUPT;
      var ok, head := reader.U64s(3);
      if !ok { return; }
      var placementCount;
      ok, placementCount := reader.U32();
      if !ok { return; }
      retired := head[2];
      if placementCount > options.maxTotalRecords { return; }
      ghost var ps;
      ok, ps := LoadPlacements(reader, placementCount);
      if !ok { return; }
      nextId, maxSequence := head[0], head[1];
      code := LoadAttemptTable(reader, Snapshot(head[0], head[1], head[2], ps, []));
    }

    method LoadAttemptTable(reader: ByteReader, ghost s: Snapshot) returns (code: StatusCode)
      requires reader.Valid()
      requires Memory() == IndexAll(FRESH, s.placements).(nextId := s.nextId, maxSequence := s.maxSequence)
      requires retired == s.retired
      modifies this, reader
      ensures files == old(files) && journalRecords == old(journalRecords)
      ensures var r := ReadAttemptTable(old(reader.Rest()), s, options);
              && (r.Err? ==> code == r.code && code != OK)
              && (r.Ok? ==> code == OK && Memory() == FromSnapshot(r.value) && retired == r.value.retired)
    {
      hide ReadAttempts, ReadU32, IndexAll, NoteAll, WellIndexed;
      code := STORE_CORRUPT;
      var ok, attemptCount := reader.U32();
      if !ok { return; }
      if attemptCount > options.maxTotalRecords { return; }
      ghost var rs;
      ok, rs := LoadAttempts(reader, attemptCount);
      if !ok { return; }
      if reader.offset != |reader.data| { return; }
      NoteAllFrame(IndexAll(FRESH, s.placements), rs, s.nextId, s.maxSequence);
      code := OK;
    }

    method LoadSnapshot() returns (code: StatusCode)
      requires Memory() == FRESH && journalRecords == 0 && files.snapshot.Some?
      modifies this
      ensures files == old(files) && journalRecords == 0
      ensures var r := ReadSnapshotFile(files.snapshot.value, options);
              && (r.Err? ==> code == r.code && code != OK)
              && (r.Ok? ==> code == OK && Memory() == FromSnapshot(r.value) && retired == r.value.retired)
    {
      hide ReadSnapshotPayload, FromSnapshot;
      var file := files.snapshot.value;
      if |file| < 16 { return STORE_CORRUPT; }
      if FromLE(file[..4]) != SNAPSHOT_MAGIC { return STORE_CORRUPT; }
      if FromLE(file[4..8]) != STORE_FORMAT_VERSION { return STORE_VERSION_UNSUPPORTED; }
      var length, payloadCrc := FromLE(file[8..12]), FromLE(file[12..16]);
      if length > options.maxRecordBytes { return STORE_CORRUPT; }
      if |file| - 16 < length { return STORE_CORRUPT; }
      var payload := file[16..16 + length];
      if |file| - 16 - length < 8 { return STORE_CORRUPT; }
      if FromLE(file[20 + length..24 + length]) != SNAPSHOT_END_MAGIC { return STORE_CORRUPT; }
      var crc := Compute([payload]);
      assert Flat([payload]) == payload + Flat([]) == payload;
      if crc != payloadCrc { return STORE_CORRUPT; }
      if |file| > 24 + length { return STORE_CORRUPT; }
      var reader := new ByteReader(payload);
      code := LoadPayload(reader);
    }

    /** Applies one checksum-correct journal record. */
    method Apply(e: Entry, covered: u64) returns (code: StatusCode)
      modifies this
      ensures files == old(files) && journalRecords == old(journalRecords) && retired == old(retired)
      ensures var r := ApplyEntry(old(Memory()), covered, e);
              && (r.Err? ==> code == r.code && code != OK)
              && (r.Ok? ==> code == OK && Memory() == r.value)
    {
      hide ReadPlacement, ReadAttempt, FromLE, Index, WellIndexed;
      code := STORE_CORRUPT;
      if e.kind == RESET {
        if |e.payload| != 8 { return; }
        if FromLE(e.payload) != covered { return; }
        maxSequence := e.sequence;
        return OK;
      }
      if e.sequence <= maxSequence { return OK; }
      if e.sequence != maxSequence + 1 { return; }
      if e.kind == PLACEMENT {
        code := ApplyPlacement(e);
      } else {
        code := ApplyAttempt(e);
      }
    }

    method ApplyPlacement(e: Entry) returns (code: StatusCode)
      modifies this
      ensures files == old(files) && journalRecords == old(journalRecords) && retired == old(retired)
      ensures var m := old(Memory());
              var p := ReadPlacement(e.payload);
              if p.Short? || p.rest != [] then code == STORE_CORRUPT
              else code == OK && Memory() == Index(m, p.value).(
                     nextId := if p.value.id >= m.nextId then Increment(p.value.id) else m.nextId,
                     maxSequence := e.sequence)
    {
      hide ReadPlacement, WellIndexed, Index, Increment;
      var ok, record := DecodePlacement(e.payload);
      if !ok { return STORE_CORRUPT; }
      IndexPlacement(record);
      if record.id >= nextId { nextId := Increment(record.id); }
      maxSequence := e.sequence;
      code := OK;
    }

    method ApplyAttempt(e: Entry) returns (code: StatusCode)
      modifies this
      ensures files == old(files) && journalRecords == old(journalRecords) && retired == old(retired)
      ensures var m := old(Memory());
              var p := ReadAttempt(e.payload);
              if p.Short? || p.rest != []
                 || (p.value.attempt in m.attempts && m.attempts[p.value.attempt].phase != Started && p.value.phase == Started)
              then code == STORE_CORRUPT
              else code == OK && Memory() == Note(m, p.value).(maxSequence := e.sequence)
    {
      hide ReadAttempt, WellIndexed, Note;
      var ok, record := DecodeAttempt(e.payload);
      if !ok { return STORE_CORRUPT; }
      if record.attempt in attempts && attempts[record.attempt].phase != Started && record.phase == Started {
        return STORE_CORRUPT;
      }
      NoteAttempt(record);
      maxSequence := e.sequence;
      code := OK;
    }

    /** Damage at an offset: refuse when a later record is intact, otherwise drop the tail if allowed. */
    method HandleDamage(offset: nat) returns (code: StatusCode)
      requires files.journal.Some? && offset <= |files.journal.value|
      modifies this`files
      ensures var torn := old(files).journal.value[offset..];
              if LaterRecord(torn, ReadLimit(options)) then code == STORE_CORRUPT && files == old(files)
              else if options.readOnly then code == OK && files == old(files)
              else if !options.repairTornTail then code == STORE_TRUNCATED_TAIL && files == old(files)
              else code == OK && files == old(files).(journal := Some(old(files).journal.value[..offset]))
    {
      hide LaterRecord;
      var data := files.journal.value;
      var found := FindLaterRecord(data, offset, ReadLimit(options));
      if found { return STORE_CORRUPT; }
      if options.readOnly { return OK; }
      if !options.repairTornTail { return STORE_TRUNCATED_TAIL; }
      files := files.(journal := Some(data[..offset]));
      code := OK;
    }

    /** Reads records until the end of the file or the first damage, applying each. */
    method LoadJournal() returns (code: StatusCode)
      requires journalRecords == 0
      modifies this
      ensures var r := Recovery.LoadJournal(options, old(Memory()), old(files));
              && files == r.disk && retired == old(retired)
              && (r.result.Err? ==> code == r.result.code && code != OK)
              && (r.result.Ok? ==>
                    code == OK && Memory() == r.result.value.mem && journalRecords == r.result.value.journalRecords)
    {
      hide ParseEntry, Scan, ApplyEntry, LaterRecord, Replay, EntryBytes;
      if files.journal.None? { return OK; }
      var data, covered, limit := files.journal.value, maxSequence, ReadLimit(options);
      ghost var all := Scan(data, limit);
      var offset, records, damaged := 0, 0, false;
      assert data[0..] == data;
      while offset < |data| && !damaged
        invariant offset <= |data| && !damaged && files == old(files) && retired == old(retired)
        invariant journalRecords == 0
        invariant all.torn == Scan(data[offset..], limit).torn
        invariant |all.entries| == records + |Scan(data[offset..], limit).entries|
        invariant Replay(old(Memory()), covered, all.entries) == Replay(Memory(), covered, Scan(data[offset..], limit).entries)
        decreases |data| - offset
      {
        var p := ReadRecord(data, offset, limit);
        if p.Short? {
          ScanShort(data[offset..], limit);
          ReplayNone(Memory(), covered);
          assert data[..|data| - |data[offset..]|] == data[..offset];
          code := HandleDamage(offset);
          journalRecords := records;
          return;
        }
        ScanGot(data[offset..], limit);
        records := records + 1;
        ghost var later := Scan(p.rest, limit).entries;
        ReplayStep(Memory(), covered, p.value, later);
        code := Apply(p.value, covered);
        if code != OK { return; }
        ParseEntryCanonical(data[offset..], limit);
        offset := offset + (OVERHEAD + |p.value.payload|);
        RestAt(data, offset, p.value, p.rest);
      }
      assert data[offset..] == [];
      NothingLeft(limit);
      ReplayNone(Memory(), covered);
      journalRecords := records;
      code := OK;
    }

    method Settle(k: u64) returns (bad: bool)
      requires k in attempts
      modifies this`attempts
      ensures bad <==> old(attempts)[k].phase == Committed && k !in commits
      ensures attempts == old(attempts)[k :=
                if old(attempts)[k].phase == Started && k in commits then old(attempts)[k].(phase := Committed)
                else old(attempts)[k]]
    {
      bad := false;
      match attempts[k].phase {
        case Started => if k in commits { attempts := attempts[k := attempts[k].(phase := Committed)]; }
        case Committed => bad := k !in commits;
        case _ =>
      }
    }

    /** Settles the attempts that committed, and reports an acknowledged attempt without a placement. */
    method Account() returns (orphan: bool)
      modifies this`attempts
      ensures Memory() == SettleAttempts(old(Memory()))
      ensures orphan <==> OrphanCommit(old(Memory()))
    {
      hide Accounted, Least, SettledRecord, SettleAttempts, OrphanCommit;
      ghost var m := Memory();
      var rest := attempts.Keys;
      orphan := false;
      AccountStart(m);
      while rest != {}
        invariant Accounted(m, attempts, rest, orphan) && rest <= m.attempts.Keys && attempts.Keys == m.attempts.Keys
        decreases |rest|
      {
        var k := Least(rest);
        AccountStep(m, attempts, rest, orphan, k);
        var bad := Settle(k);
        orphan := orphan || bad;
        rest := rest - {k};
      }
      AccountEnd(m, attempts, orphan);
    }

    // ---- appending ------------------------------------------------------------------------------

    /** Frames a payload and appends it; `item` is what the payload says. */
    method AppendRecordRaw(kind: Kind, payload: Payload, ghost item: Item) returns (code: StatusCode)
      requires kind == KindOf(item) && payload == PayloadOf(item)
      modifies this
      ensures var e := AppendRaw(options, old(State()), item);
              code == e.code && State() == e.session && files == ApplyWrites(old(files), e.writes)
    {
      hide LE, Crc, PayloadOf;
      if options.readOnly { return NOT_RUNNING; }
      if |payload| > options.maxRecordBytes { return OVERSIZE_REQUEST; }
      if maxSequence >= options.maxTotalRecords { return STORE_GROWTH_EXCEEDED; }
      var sequence := maxSequence + 1;
      var record := Framed(kind, sequence, payload);
      ghost var line := Line(sequence, item);
      assert EntryOf(line) == Entry(kind, sequence, payload);
      ghost var ws := [Append(line)];
      assert ws[1..] == [];
      assert ApplyWrites(files, ws) == ApplyWrite(files, ws[0]);
      files := files.(journal := Some(JournalBytes(files) + record));
      maxSequence := sequence;
      journalRecords := journalRecords + 1;
      code := OK;
    }

    /** `before` is the append this follows, and `base` the files before that append. */
    method MaybeCompact(ghost before: Effect, ghost base: Disk) returns (code: StatusCode)
      requires Valid() && before.session == State() && before.code == OK && files == ApplyWrites(base, before.writes)
      modifies this
      ensures var e := StoreOps.MaybeCompact(options, before);
              code == e.code && State() == e.session && files == ApplyWrites(base, e.writes)
    {
      hide WellIndexed, StoreOps.Compact, ApplyWrites;
      if options.readOnly { return OK; }
      if options.maxJournalRecords == 0 { return OK; }
      if journalRecords < options.maxJournalRecords { return OK; }
      StoreRuns.ApplyWritesAppend(base, before.writes, StoreOps.Compact(options, before.session).writes);
      code := Compact();
    }

    method AppendAttempt(a: AttemptRecord) returns (code: StatusCode)
      requires Valid()
      modifies this
      ensures var e := StoreOps.AppendAttempt(options, old(State()), a);
              code == e.code && State() == e.session && files == ApplyWrites(old(files), e.writes)
    {
      hide AttemptBytes, StoreOps.Compact, ApplyWrites, WellIndexed;
      var w := new ByteWriter();
      EncodeAttemptRecord(a, w);
      ghost var raw := AppendRaw(options, State(), Tried(a));
      assert w.data == AttemptBytes(a);
      code := AppendRecordRaw(ATTEMPT, w.data, Tried(a));
      if code != OK { return; }
      StoreRuns.NoteKeeps(Memory(), old(Memory()), a);
      NoteAttempt(a);
      code := MaybeCompact(raw.(session := State()), old(files));
    }

    method AppendAttemptStart(a: AttemptRecord) returns (code: StatusCode)
      requires Valid()
      modifies this
      ensures var e := StoreOps.AppendAttemptStart(options, old(State()), a);
              code == e.code && State() == e.session && files == ApplyWrites(old(files), e.writes)
    {
      hide StoreOps.AppendAttempt, WellIndexed;
      if a.attempt in attempts && attempts[a.attempt].phase != Started { return ALREADY_EXISTS; }
      if a.attempt in commits { return ALREADY_EXISTS; }
      code := AppendAttempt(a.(phase := Started, sequence := Increment(maxSequence)));
    }

    method AppendAttemptTerminal(a: AttemptRecord) returns (code: StatusCode)
      requires Valid()
      modifies this
      ensures var e := StoreOps.AppendAttemptTerminal(options, old(State()), a);
              code == e.code && State() == e.session && files == ApplyWrites(old(files), e.writes)
    {
      hide StoreOps.AppendAttempt, WellIndexed;
      if a.phase == Started { return INVALID_ARGUMENT; }
      if a.attempt in attempts && attempts[a.attempt].phase != Started { return ALREADY_EXISTS; }
      code := AppendAttempt(a.(sequence := Increment(maxSequence)));
    }

    /** Encodes the record, checks that it decodes to itself, and appends it before indexing it. */
    method WritePlacement(p: PlacementRecord) returns (code: StatusCode, record: Option<PlacementRecord>)
      requires Valid()
      modifies this
      ensures var e := StoreOps.CommitRecord(options, old(State()), p);
              code == e.code && record == e.record && State() == e.session && files == ApplyWrites(old(files), e.writes)
    {
      hide PlacementBytes, StoreOps.Compact, ApplyWrites, WellIndexed, ReadPlacement, Index;
      record := None;
      var w := new ByteWriter();
      EncodePlacementRecord(p, w);
      assert w.data == PlacementBytes(p);
      var verify := new ByteReader(w.data);
      ReadPlacementBack(p, []);
      assert PlacementBytes(p) + [] == PlacementBytes(p);
      var ok, decoded := DecodePlacementRecord(verify);
      if !ok || !SameIntent(decoded.intent, p.intent) || decoded.id != p.id || decoded.generation != p.generation {
        assert false;
        return INTERNAL_INVARIANT_VIOLATION, None;
      }
      ghost var raw := AppendRaw(options, State(), Placed(p));
      code := AppendRecordRaw(PLACEMENT, w.data, Placed(p));
      if code != OK { return; }
      Recovery.Reindexed(old(Memory()), Memory());
      ghost var indexed := Index(Memory(), p);
      IndexPlacement(p);
      nextId := Increment(p.id);
      Recovery.Reindexed(indexed, Memory());
      StoreRuns.MaybeCompactAdds(options, raw.(session := State()));
      code := MaybeCompact(raw.(session := State()), old(files));
      if code != OK { return; }
      record := Some(p);
    }

    method CommitPlacement(r: Request) returns (code: StatusCode, record: Option<PlacementRecord>)
      requires Valid()
      modifies this
      ensures var e := StoreOps.CommitPlacement(options, old(State()), r);
              code == e.code && record == e.record && State() == e.session && files == ApplyWrites(old(files), e.writes)
    {
      hide StoreOps.CommitRecord;
      record := None;
      var i := r.intent;
      if i.flow == 0 || i.path == 0 || i.pathAuthority == 0 { return INVALID_ARGUMENT, None; }
      if !r.digestMatches { return INCONSISTENT_AUTHORITY_GENERATION, None; }
      if i.attempt != 0 && i.attempt in commits {
        var existing := placements[commits[i.attempt]];
        if SameIntent(existing.intent, i) { return OK, Some(existing); }
        return DUPLICATE_ATTEMPT_CONFLICT, None;
      }
      if maxSequence >= options.maxTotalRecords { return STORE_GROWTH_EXCEEDED, None; }
      var generation, supersedes := 1, 0;
      if i.flow in latest {
        var previous := placements[latest[i.flow]];
        if previous.generation == MAX_U64 { return ARITHMETIC_OVERFLOW, None; }
        generation, supersedes := previous.generation + 1, previous.generation;
      }
      var p := PlacementRecord(nextId, generation, i, r.delta, r.digestHi, r.digestLo, r.committedBy, r.commitEpoch,
                               Increment(maxSequence), supersedes, r.unixNanos, false);
      assert p == NewRecord(Memory(), r, generation, supersedes);
      code, record := WritePlacement(p);
    }

    // ---- compaction -------------------------------------------------------------------------------

    /** The attempts inside the retention window, in key order, and the count of those retired. */
    method Retain() returns (kept: seq<AttemptRecord>, gone: u64)
      requires Valid()
      ensures kept == RetainedRecords(options, Memory())
      ensures |kept| <= |attempts| && gone == Wrapped(retired + |attempts| - |kept|)
    {
      hide WellIndexed, RetainedRecords, RetainedKeys, Increasing, KeptOf, Wrapped;
      var keys := Ascending(attempts.Keys);
      assert |keys| == |attempts|;
      kept, gone := Sift(keys);
      KeptIsRetained(options, Memory());
    }

    /** Which of these attempts are in the window, and the count of retired ones with the others added. */
    method Sift(keys: seq<u64>) returns (kept: seq<AttemptRecord>, gone: u64)
      requires forall i :: 0 <= i < |keys| ==> keys[i] in attempts
      ensures kept == KeptOf(options, Memory(), keys)
      ensures |kept| <= |keys| && gone == Wrapped(retired + |keys| - |kept|)
    {
      hide Increment, KeptOf, Wrapped;
      var retention := if options.maxJournalRecords == 0 then maxSequence else options.maxJournalRecords;
      ghost var m := Memory();
      kept, gone := [], retired;
      NoneKept(options, m);
      Unwrapped(retired);
      var i := 0;
      while i < |keys|
        invariant 0 <= i <= |keys| && kept == KeptOf(options, m, keys[..i])
        invariant |kept| <= i && gone == Wrapped(retired + i - |kept|)
      {
        var attempt := attempts[keys[i]];
        KeptStep(options, m, keys, i);
        if maxSequence > retention && (attempt.sequence + retention) % U64_LIMIT < maxSequence {
          gone := Increment(gone);
          IncrementWraps(retired + i - |kept|);
        } else {
          kept := kept + [attempt];
        }
        i := i + 1;
      }
      assert keys[..i] == keys;
    }

    method PutLatest(w: ByteWriter)
      requires Valid()
      modifies w
      ensures w.data == old(w.data) + PlacementsBytes(LatestRecords(Memory()))
    {
      hide PlacementsBytes, WellIndexed, PlacementBytes, LatestOf, LatestAll, Increasing;
      ghost var m := Memory();
      var flows := Ascending(latest.Keys);
      var i := 0;
      LatestAllNone(m);
      while i < |flows|
        invariant 0 <= i <= |flows|
        invariant w.data == old(w.data) + PlacementsBytes(LatestAll(m, flows[..i]))
      {
        LatestAllStep(m, flows, i);
        PlacementsBytesSnoc(LatestAll(m, flows[..i]), LatestOf(m, flows[i]));
        EncodedAlike(m, flows[i]);
        EncodePlacementRecord(placements[latest[flows[i]]], w);
        i := i + 1;
      }
      assert flows[..i] == flows;
    }

    /** The payload of the snapshot: the latest placement of every flow, then the retained attempts. */
    method SnapshotBody() returns (payload: seq<byte>)
      requires Valid()
      ensures payload == SnapshotPayload(MakeSnapshot(options, State()))
    {
      hide LE, PutU64s, PlacementsBytes, AttemptsBytes, WellIndexed, RetainedRecords, LatestRecords;
      var kept, gone := Retain();
      var w := new ByteWriter();
      w.U64s([nextId, maxSequence, gone]);
      w.U32(|latest| % 0x1_0000_0000);
      LowCount(|latest|);
      PutLatest(w);
      w.U32(|kept| % 0x1_0000_0000);
      LowCount(|kept|);
      PutAttempts(kept, w);
      payload := w.data;
      ghost var snap := MakeSnapshot(options, State());
      assert snap == Snapshot(nextId, maxSequence, gone, LatestRecords(Memory()), kept);
      assert |latest.Keys| == |latest|;
      BodyParts(snap, payload);
    }

    /** The snapshot file: header, payload, container checksum, end mark. */
    method Container() returns (container: seq<byte>)
      requires Valid()
      ensures container == SnapshotFile(MakeSnapshot(options, State()))
    {
      hide LE, Crc, SnapshotPayload, MakeSnapshot, WellIndexed;
      var payload := SnapshotBody();
      var w := new ByteWriter();
      w.U32(SNAPSHOT_MAGIC);
      w.U32(STORE_FORMAT_VERSION);
      w.U32(|payload| % 0x1_0000_0000);
      LowCount(|payload|);
      var crc := Compute([payload]);
      assert Flat([payload]) == payload + Flat([]) == payload;
      w.U32(crc);
      ghost var h := LE(SNAPSHOT_MAGIC, 4) + LE(STORE_FORMAT_VERSION, 4) + LE(|payload|, 4) + LE(Crc(payload), 4);
      assert w.data == h;
      w.Raw(payload);
      var body := w.data;
      crc := Compute([body]);
      assert Flat([body]) == body + Flat([]) == body;
      w.U32(crc);
      w.U32(SNAPSHOT_END_MAGIC);
      container := w.data;
    }

    /** Replaces the snapshot, then the journal, then writes the marker that rebases the sequence. */
    method Compact() returns (code: StatusCode)
      requires Valid()
      modifies this
      ensures var e := StoreOps.Compact(options, old(State()));
              code == e.code && State() == e.session && files == ApplyWrites(old(files), e.writes)
    {
      hide LE, WellIndexed, MakeSnapshot, SnapshotFile;
      if options.readOnly { return NOT_RUNNING; }
      var covered := maxSequence;
      ghost var snap := MakeSnapshot(options, State());
      var container := Container();
      files := files.(snapshot := Some(container));
      files := files.(journal := Some([]));
      ghost var replaced := [ReplaceSnapshot(snap), EmptyJournal];
      assert files == ApplyWrites(old(files), replaced) by { TwoWrites(old(files), replaced); }
      maxSequence, journalRecords := 0, 0;
      ghost var marker := AppendRaw(options, State(), Reset(covered));
      StoreRuns.ApplyWritesAppend(old(files), replaced, marker.writes);
      var payload: Journal.Payload := LE(covered, 8);
      code := AppendRecordRaw(RESET, payload, Reset(covered));
      if code != OK {
        assert marker.writes == [] && replaced + marker.writes == replaced;
        return;
      }
      maxSequence, journalRecords := 1, 0;
    }
  }

  lemma TwoWrites(d: Disk, ws: seq<Write>)
    requires |ws| == 2
    ensures ApplyWrites(d, ws) == ApplyWrite(ApplyWrite(d, ws[0]), ws[1])
  {
    hide ApplyWrite;
    assert ws[1..][1..] == [];
    assert ApplyWrites(ApplyWrite(d, ws[0]), ws[1..]) == ApplyWrites(ApplyWrite(ApplyWrite(d, ws[0]), ws[1]), []);
  }

  /** A count as an unsigned 64-bit number. */
  function Wrapped(n: nat): u64 { n % U64_LIMIT }

  lemma Unwrapped(n: u64)
    ensures Wrapped(n) == n
  {
  }

  lemma IncrementWraps(n: nat)
    ensures Increment(Wrapped(n)) == Wrapped(n + 1)
  {
  }

  method PutAttempts(rs: seq<AttemptRecord>, w: ByteWriter)
    modifies w
    ensures w.data == old(w.data) + AttemptsBytes(rs)
  {
    hide AttemptsBytes, AttemptBytes;
    var i := 0;
    AttemptsNone();
    while i < |rs|
      invariant 0 <= i <= |rs|
      invariant w.data == old(w.data) + AttemptsBytes(rs[..i])
    {
      AttemptsBytesSnoc(rs[..i], rs[i]);
      assert rs[..i + 1] == rs[..i] + [rs[i]];
      EncodeAttemptRecord(rs[i], w);
      i := i + 1;
    }
    assert rs[..i] == rs;
  }

  lemma BodyParts(s: Snapshot, payload: seq<byte>)
    requires payload == PutU64s([s.nextId, s.maxSequence, s.retired]) + LE(|s.placements|, 4) + PlacementsBytes(s.placements)
                        + LE(|s.attempts|, 4) + AttemptsBytes(s.attempts)
    ensures payload == SnapshotPayload(s)
  {
    hide LE, PutU64s, PlacementsBytes, AttemptsBytes;
  }

  // ---- retention ------------------------------------------------------------------------------------

  /** The records of these keys that are inside the retention window, in order. */
  function KeptOf(o: Options, m: Mem, keys: seq<u64>): seq<AttemptRecord> {
    if keys == [] then []
    else (if keys[0] in m.attempts && Retained(o, m, m.attempts[keys[0]]) then [m.attempts[keys[0]]] else []) + KeptOf(o, m, keys[1..])
  }

  lemma NoneKept(o: Options, m: Mem)
    ensures KeptOf(o, m, []) == []
  {
  }

  lemma {:induction false} KeptSnoc(o: Options, m: Mem, keys: seq<u64>, k: u64)
    requires k in m.attempts
    ensures KeptOf(o, m, keys + [k]) == KeptOf(o, m, keys) + if Retained(o, m, m.attempts[k]) then [m.attempts[k]] else []
  {
    hide Retained;
    if keys == [] {
      assert keys + [k] == [k] && [k][1..] == [];
    } else {
      assert (keys + [k])[0] == keys[0] && (keys + [k])[1..] == keys[1..] + [k];
      KeptSnoc(o, m, keys[1..], k);
    }
  }

  lemma KeptStep(o: Options, m: Mem, keys: seq<u64>, i: nat)
    requires i < |keys| && keys[i] in m.attempts
    ensures KeptOf(o, m, keys[..i + 1]) ==
              KeptOf(o, m, keys[..i]) + if Retained(o, m, m.attempts[keys[i]]) then [m.attempts[keys[i]]] else []
  {
    hide Retained, KeptOf;
    assert keys[..i + 1] == keys[..i] + [keys[i]];
    KeptSnoc(o, m, keys[..i], keys[i]);
  }

  /** The names of the records KeptOf keeps. */
  function KeptKeys(o: Options, m: Mem, keys: seq<u64>): seq<u64> {
    if keys == [] then []
    else (if keys[0] in m.attempts && Retained(o, m, m.attempts[keys[0]]) then [keys[0]] else []) + KeptKeys(o, m, keys[1..])
  }

  lemma {:induction false} KeptKeysIn(o: Options, m: Mem, keys: seq<u64>)
    ensures forall k :: k in KeptKeys(o, m, keys) <==> k in keys && k in m.attempts && Retained(o, m, m.attempts[k])
  {
    hide Retained;
    if keys != [] {
      KeptKeysIn(o, m, keys[1..]);
      assert forall k :: k in keys <==> k == keys[0] || k in keys[1..];
    }
  }

  lemma {:induction false} KeptNamed(o: Options, m: Mem, keys: seq<u64>)
    ensures var kept, names := KeptOf(o, m, keys), KeptKeys(o, m, keys);
            |kept| == |names| && forall i :: 0 <= i < |kept| ==> names[i] in m.attempts && kept[i] == m.attempts[names[i]]
  {
    hide Retained;
    if keys != [] {
      KeptNamed(o, m, keys[1..]);
    }
  }

  lemma {:induction false} KeptKeysFilter(o: Options, m: Mem, keys: seq<u64>)
    requires Increasing(keys)
    ensures Increasing(KeptKeys(o, m, keys))
  {
    hide Retained;
    if keys != [] {
      var rest := KeptKeys(o, m, keys[1..]);
      KeptKeysFilter(o, m, keys[1..]);
      KeptKeysIn(o, m, keys[1..]);
      IncreasingFrom(keys[0], rest);
    }
  }

  lemma KeptIsRetained(o: Options, m: Mem)
    ensures KeptOf(o, m, Ascending(m.attempts.Keys)) == RetainedRecords(o, m)
  {
    hide Retained, KeptOf, KeptKeys, Increasing, RetainedRecords;
    var keys := Ascending(m.attempts.Keys);
    KeptKeysIn(o, m, keys);
    KeptNamed(o, m, keys);
    KeptKeysFilter(o, m, keys);
    RetainedListed(o, m);
    IncreasingUnique(KeptKeys(o, m, keys), Ascending(RetainedKeys(o, m)));
  }

  lemma LatestAllNone(m: Mem)
    requires WellIndexed(m)
    ensures PlacementsBytes(LatestAll(m, [])) == []
  {
    hide WellIndexed;
  }

  lemma AttemptsNone()
    ensures AttemptsBytes([]) == []
  {
  }

  lemma {:induction false} LatestAllSnoc(m: Mem, flows: seq<u64>, f: u64)
    requires WellIndexed(m) && f in m.latest && forall g <- flows :: g in m.latest
    ensures forall g <- flows + [f] :: g in m.latest
    ensures LatestAll(m, flows + [f]) == LatestAll(m, flows) + [LatestOf(m, f)]
    decreases |flows|
  {
    hide WellIndexed, LatestOf;
    if flows == [] {
      assert flows + [f] == [f];
      assert LatestAll(m, [f]) == [LatestOf(m, f)] + LatestAll(m, [f][1..]);
    } else {
      assert (flows + [f])[0] == flows[0] && (flows + [f])[1..] == flows[1..] + [f];
      LatestAllSnoc(m, flows[1..], f);
    }
  }

  lemma LatestAllStep(m: Mem, flows: seq<u64>, i: nat)
    requires WellIndexed(m) && i < |flows| && forall g <- flows :: g in m.latest
    ensures LatestAll(m, flows[..i + 1]) == LatestAll(m, flows[..i]) + [LatestOf(m, flows[i])]
  {
    hide WellIndexed, LatestOf;
    assert flows[..i + 1] == flows[..i] + [flows[i]];
    LatestAllSnoc(m, flows[..i], flows[i]);
  }

  /** The revalidation mark is not part of a record's bytes. */
  lemma EncodedAlike(m: Mem, f: u64)
    requires WellIndexed(m) && f in m.latest
    ensures m.latest[f] < |m.placements|
    ensures PlacementBytes(LatestOf(m, f)) == PlacementBytes(m.placements[m.latest[f]])
  {
    hide PutU64s;
  }

  function SettledRecord(m: Mem, k: u64): AttemptRecord
    requires k in m.attempts
  {
    if m.attempts[k].phase == Started && k in m.commits then m.attempts[k].(phase := Committed) else m.attempts[k]
  }

  /** All attempts but those in rest are settled, and orphan tells whether one of them has no placement. */
  ghost predicate Accounted(m: Mem, now: map<u64, AttemptRecord>, rest: set<u64>, orphan: bool) {
    && rest <= m.attempts.Keys && now.Keys == m.attempts.Keys
    && (forall k <- m.attempts :: now[k] == if k in rest then m.attempts[k] else SettledRecord(m, k))
    && (orphan <==> exists k <- m.attempts :: k !in rest && m.attempts[k].phase == Committed && k !in m.commits)
  }

  lemma AccountStart(m: Mem)
    ensures Accounted(m, m.attempts, m.attempts.Keys, false)
  {
  }

  lemma AccountStep(m: Mem, now: map<u64, AttemptRecord>, rest: set<u64>, orphan: bool, k: u64)
    requires Accounted(m, now, rest, orphan) && k in rest
    ensures k in m.attempts && now[k] == m.attempts[k]
    ensures Accounted(m, now[k := if now[k].phase == Started && k in m.commits then now[k].(phase := Committed) else now[k]],
                      rest - {k}, orphan || (now[k].phase == Committed && k !in m.commits))
  {
    var next := now[k := if now[k].phase == Started && k in m.commits then now[k].(phase := Committed) else now[k]];
    assert next.Keys == now.Keys;
    assert next[k] == SettledRecord(m, k);
  }

  lemma AccountEnd(m: Mem, now: map<u64, AttemptRecord>, orphan: bool)
    requires Accounted(m, now, {}, orphan)
    ensures m.(attempts := now) == SettleAttempts(m)
    ensures orphan <==> OrphanCommit(m)
  {
    assert now == SettleAttempts(m).attempts;
  }

  /** Opens a store over its files: the snapshot, then the journal, then the accounting of attempts. */
  method OpenStore(o: Options, files: Disk) returns (code: StatusCode, store: PlacementStore)
    ensures fresh(store) && store.options == o && store.files == Recovery.Open(o, files).disk
    ensures var r := Recovery.Open(o, files).result;
            && (r.Err? ==> code == r.code && code != OK)
            && (r.Ok? ==> code == OK && store.State() == r.value)
  {
    hide ReadSnapshotFile, FromSnapshot, Recovery.LoadJournal, OrphanCommit, SettleAttempts, WellIndexed;
    store := new PlacementStore(o, files);
    if files.snapshot.Some? {
      code := store.LoadSnapshot();
      if code != OK { return; }
    }
    ghost var base := store.Memory();
    ghost var loaded := Recovery.LoadJournal(o, base, files);
    assert Recovery.Open(o, files).result.Ok? ==> loaded.result.Ok?;
    code := store.LoadJournal();
    if code != OK { return; }
    if !o.readOnly && store.files.journal.None? {
      store.files := store.files.(journal := Some([]));
    }
    var orphan := store.Account();
    code := if orphan then STORE_CORRUPT else OK;
  }

  /** The bytes of one journal record. */
  method Framed(kind: Kind, sequence: u64, payload: Payload) returns (record: seq<byte>)
    ensures record == EntryBytes(Entry(kind, sequence, payload))
  {
    hide LE, Crc;
    var w := new ByteWriter();
    w.U32(RECORD_MAGIC);
    w.U32(STORE_FORMAT_VERSION);
    w.U16(kind);
    w.U16(0);
    w.U64(sequence);
    w.U32(|payload|);
    var payloadCrc := Compute([payload]);
    assert Flat([payload]) == payload + Flat([]) == payload;
    w.U32(payloadCrc);
    assert w.data == HeaderOf(Entry(kind, sequence, payload));
    w.Raw(payload);
    var body := w.data;
    var recordCrc := Compute([body]);
    assert Flat([body]) == body + Flat([]) == body;
    w.U32(recordCrc);
    w.U32(RECORD_END_MAGIC);
    record := w.data;
  }

  lemma RestAt(data: seq<byte>, offset: nat, e: Entry, rest: seq<byte>)
    requires OVERHEAD + |e.payload| <= offset <= |data|
    requires data[offset - (OVERHEAD + |e.payload|)..] == EntryBytes(e) + rest
    ensures data[offset..] == rest
  {
    hide EntryBytes;
    var start := offset - (OVERHEAD + |e.payload|);
    assert data[start..][OVERHEAD + |e.payload|..] == data[offset..];
  }

  lemma ReplayStep(m: Mem, covered: u64, e: Entry, later: seq<Entry>)
    ensures var r := ApplyEntry(m, covered, e);
            Replay(m, covered, [e] + later) == if r.Err? then r else Replay(r.value, covered, later)
  {
    hide ApplyEntry;
    assert ([e] + later)[1..] == later;
  }

  lemma ReplayNone(m: Mem, covered: u64)
    ensures Replay(m, covered, []) == Ok(m)
  {
  }

  lemma NothingLeft(limit: u32)
    ensures Scan([], limit) == Scanned([], [])
  {
  }
}
