/** Where the store's promises stop: inputs on which an acknowledged placement does not come back. */
module StoreLimits {
  import opened Bytes
  import opened Records
  import opened Journal
  import opened Recovery
  import opened StoreOps
  import opened StoreViews
  import opened StoreSafety
  import opened StoreReading
  import opened StoreRuns
  import opened StoreGuarantees
  import opened StoreAcceptance
  import opened StoreBounds
  import opened Crc32c

  // ---- superseded commits --------------------------------------------------------------------------

  /** The files of a compaction: its snapshot, and nothing but perhaps its marker in the journal. */
  predicate Folded(o: Options, s: Session, l: Ledger) {
    && l.snapshot == Some(MakeSnapshot(o, s)) && l.torn == []
    && (l.lines == [] || l.lines == [Line(1, Reset(s.mem.maxSequence))])
  }

  /** What a compaction leaves on disk, whatever was there before. */
  lemma CompactedFiles(o: Options, s: Session, d: Disk) returns (l: Ledger)
    requires !o.readOnly
    ensures Represents(ApplyWrites(d, Compact(o, s).writes), l) && Folded(o, s, l)
  {
    hide WellIndexed, MakeSnapshot, SnapshotFile, EntryBytes, EntryOf;
    var ws := Compact(o, s).writes;
    var snap := MakeSnapshot(o, s);
    var d1 := ApplyWrite(d, ws[0]);
    var d2 := ApplyWrite(d1, ws[1]);
    assert ApplyWrites(d, ws) == ApplyWrites(d1, ws[1..]) == ApplyWrites(d2, ws[1..][1..]);
    var empty := Ledger(Some(snap), [], []);
    assert EntriesBytes(EntriesOf([])) + [] == [];
    assert Represents(d2, empty);
    var rest := ws[1..][1..];
    WritesRepresent(d2, empty, rest);
    l := LedgerWrites(empty, rest);
    if |ws| == 3 {
      assert rest == [ws[2]] && rest[1..] == [];
      assert LedgerWrites(empty, rest) == LedgerWrites(LedgerWrite(empty, ws[2]), rest[1..]);
      assert [] + [Line(1, Reset(s.mem.maxSequence))] == [Line(1, Reset(s.mem.maxSequence))];
    } else {
      assert rest == [];
    }
  }

  /** Compacted files open, under any options, only if the reader can do with what compaction kept. */
  lemma CompactedOpensOnlyIf(o: Options, s: Session, d: Disk, r: Options)
    requires WellIndexed(s.mem) && !o.readOnly
    ensures Open(r, ApplyWrites(d, Compact(o, s).writes)).result.Ok? ==> Reopenable(r, o, s.mem)
  {
    hide Open, Compact, Represents, ReplayLines, WellIndexed, FromSnapshot, MakeSnapshot, OwnsLatest, Retained, RetainedKeys,
         OrphanCommit, SnapshotPayload, AsRead, TailAcceptable, Torn, SettleAttempts, Leaves, Base;
    var l := CompactedFiles(o, s, d);
    var d' := ApplyWrites(d, Compact(o, s).writes);
    NothingTorn();
    MakeMarked(o, s);
    OpenReadsPrefix(r, d', l);
    SnapshotSizes(o, s);
    OrphanExactly(o, s);
    var a := AsRead(l, ReadLimit(r));
    AsReadPrefix(l, ReadLimit(r));
    CompactedBase(o, s, l);
    SameBase(l, a);
    MarkerReplay(Base(a), a.lines);
    SnapshotBase(o, s, a);
    SameOrphans(Base(a), Replayed(a).value);
  }

  lemma SnapshotBase(o: Options, s: Session, l: Ledger)
    requires l.snapshot == Some(MakeSnapshot(o, s))
    ensures Base(l) == FromSnapshot(MakeSnapshot(o, s))
  {
    hide MakeSnapshot, FromSnapshot;
  }

  /**
   Commit a flow for one attempt, record that attempt as committed, commit the flow again for another
   attempt: whatever the store and its files held before, a compaction now leaves files that no options
   open.
   */
  lemma SupersededCommitStrands(o: Options, s: Session, first: Request, done: AttemptRecord, second: Request, d: Disk, r: Options)
    requires WellIndexed(s.mem) && o.maxJournalRecords == 0
    requires first.intent.attempt != 0 && !OwnsLatest(s.mem, first.intent.attempt)
    requires second.intent.flow == first.intent.flow && second.intent.attempt != first.intent.attempt
    requires done.attempt == first.intent.attempt && done.phase == Committed
    requires var e1 := CommitPlacement(o, s, first);
             var e2 := AppendAttemptTerminal(o, e1.session, done);
             var e3 := CommitPlacement(o, e2.session, second);
             e1.writes != [] && e2.code == OK && e3.writes != []
    ensures var e1 := CommitPlacement(o, s, first);
            var e2 := AppendAttemptTerminal(o, e1.session, done);
            var e3 := CommitPlacement(o, e2.session, second);
            Open(r, ApplyWrites(d, Compact(o, e3.session).writes)).result.Err?
  {
    hide CommitPlacement, AppendAttemptTerminal, OwnsLatest, WellIndexed, Open, Compact, ApplyWrites, SnapshotSize;
    var a := first.intent.attempt;
    var e1 := CommitPlacement(o, s, first);
    var e2 := AppendAttemptTerminal(o, e1.session, done);
    var e3 := CommitPlacement(o, e2.session, second);
    CommitIndexes(o, s, first);
    FinishNotes(o, e1.session, done);
    CommitIndexes(o, e2.session, second);
    OnlyOwner(s.mem, e1.session.mem, e2.session.mem, e3.session.mem, first.intent, second.intent, done.phase);
    KeptForever(o, e3.session.mem, a);
    CompactedOpensOnlyIf(o, e3.session, d, r);
  }

  /** m' is m with one more placement, the latest of its flow. */
  predicate Adds(m: Mem, m': Mem, i: Intent) {
    && m'.attempts == m.attempts && m'.latest == m.latest[i.flow := |m.placements|]
    && |m'.placements| == |m.placements| + 1 && m'.placements[..|m.placements|] == m.placements
    && m'.placements[|m.placements|].intent == i
  }

  lemma CommitIndexes(o: Options, s: Session, r: Request)
    requires WellIndexed(s.mem) && o.maxJournalRecords == 0 && CommitPlacement(o, s, r).writes != []
    ensures !o.readOnly && Adds(s.mem, CommitPlacement(o, s, r).session.mem, r.intent)
  {
    hide WellIndexed, SameIntent, MakeSnapshot, NextRecord;
  }

  /** m' is m with this attempt in a phase, and its placements as they were. */
  predicate Notes(m: Mem, m': Mem, attempt: u64, phase: Phase) {
    && attempt in m'.attempts && m'.attempts[attempt].phase == phase
    && m'.latest == m.latest && m'.placements == m.placements
  }

  lemma FinishNotes(o: Options, s: Session, a: AttemptRecord)
    requires o.maxJournalRecords == 0 && AppendAttemptTerminal(o, s, a).code == OK
    ensures Notes(s.mem, AppendAttemptTerminal(o, s, a).session.mem, a.attempt, a.phase)
  {
    hide WellIndexed, MakeSnapshot;
  }

  lemma OnlyOwner(m0: Mem, m1: Mem, m2: Mem, m3: Mem, first: Intent, second: Intent, phase: Phase)
    requires WellIndexed(m0) && WellIndexed(m3) && !OwnsLatest(m0, first.attempt)
    requires Adds(m0, m1, first) && Notes(m1, m2, first.attempt, phase) && Adds(m2, m3, second)
    requires second.flow == first.flow && second.attempt != first.attempt
    ensures !OwnsLatest(m3, first.attempt)
  {
    forall f | f in m3.latest ensures m3.placements[m3.latest[f]].intent.attempt != first.attempt {
      if f != first.flow {
        assert m3.placements[m3.latest[f]] == m0.placements[m0.latest[f]];
      }
    }
  }

  lemma KeptForever(o: Options, m: Mem, a: u64)
    requires o.maxJournalRecords == 0 && a in m.attempts
    ensures a in RetainedKeys(o, m)
  {
  }

  const EXAMPLE := Options(true, false, 0x10_0000, 0, 1000)
  const EMPTY := Session(FRESH, 0, 0)
  const INTENT := Intent(7, 1, 5, 1, 1, 1, 1, 1, 1, 1, 1, 1, 1, 1, 1, 0, 0, 1, 1, 0, 0)
  const FIRST := Request(INTENT, true, NoIncumbent, 0, 0, 1, 1, 0)
  const DONE := AttemptRecord(1, 1, 1, 7, Committed, OK, 0, 0, 0, 0)
  const SECOND := Request(INTENT.(attempt := 2), true, Kept, 0, 0, 1, 1, 0)

  /** The flow can be given another generation. */
  predicate Extendable(m: Mem, flow: u64) {
    flow in m.latest ==> WellIndexed(m) && m.placements[m.latest[flow]].generation < MAX_U64
  }

  lemma FreshAttemptWrites(s: Session, r: Request)
    requires WellIndexed(s.mem) && r.digestMatches && s.mem.maxSequence < 1000 && Extendable(s.mem, r.intent.flow)
    requires r.intent.flow != 0 && r.intent.path != 0 && r.intent.pathAuthority != 0 && r.intent.attempt !in s.mem.commits
    ensures var e := CommitPlacement(EXAMPLE, s, r);
            && e.writes != [] && e.session.mem.maxSequence == s.mem.maxSequence + 1
            && (forall a: u64 :: a in e.session.mem.commits ==> a in s.mem.commits || a == r.intent.attempt)
            && (r.intent.flow !in s.mem.latest ==> Extendable(e.session.mem, r.intent.flow))
  {
    hide MakeSnapshot, SameIntent;
  }

  /** Opening where there are no files yet. */
  lemma FirstOpen()
    ensures Possible(GENESIS, Reopen(EXAMPLE)) && Step(GENESIS, Reopen(EXAMPLE)) == OPENED
  {
    hide EntryBytes, EntryOf;
    assert SettleAttempts(FRESH).attempts == map[];
    assert !OrphanCommit(FRESH);
  }

  lemma OneAppend(d: Disk, line: Line)
    ensures ApplyWrites(d, [Append(line)]) == d.(journal := Some(JournalBytes(d) + EntryBytes(EntryOf(line))))
    ensures PlacedBy([Append(line)]) == Added(Append(line))
  {
    hide EntryBytes, EntryOf, Added;
    var ws := [Append(line)];
    assert ws[1..] == [];
    assert ApplyWrites(d, ws) == ApplyWrites(ApplyWrite(d, ws[0]), ws[1..]);
    assert PlacedBy(ws) == Added(ws[0]) + PlacedBy(ws[1..]);
  }

  const OPENED := World(Some(Handle(EXAMPLE, EMPTY)), Disk(Some([]), None), [], true)

  function Filed(): Disk { Disk(Some(EntryBytes(EntryOf(LINE))), None) }

  function Committed1(): World {
    hide *;
    OPENED.(up := Some(Handle(EXAMPLE, CommitPlacement(EXAMPLE, EMPTY, FIRST).session)), disk := Filed(), log := [Durable(PLACED)])
  }

  lemma FirstStep()
    ensures Possible(OPENED, Do(Op.Commit(FIRST))) && Step(OPENED, Do(Op.Commit(FIRST))) == Committed1()
  {
    hide EntryBytes, EntryOf, CommitPlacement, ApplyWrites, Interrupted, Open;
    FirstWrites();
    OneAppend(OPENED.disk, LINE);
    assert [] + EntryBytes(EntryOf(LINE)) == EntryBytes(EntryOf(LINE));
    assert Perform(EXAMPLE, EMPTY, Op.Commit(FIRST)) == CommitPlacement(EXAMPLE, EMPTY, FIRST);
    assert OPENED.log + [Durable(PLACED)] == [Durable(PLACED)];
  }

  const FIRST_EVENTS := [Reopen(EXAMPLE), Do(Op.Commit(FIRST))]

  /** After the first opening and the first commit. */
  lemma FirstCommit()
    ensures Runs(GENESIS, FIRST_EVENTS, Committed1())
  {
    hide Step, Possible, CommitPlacement, EntryBytes, EntryOf, Committed1;
    FirstOpen();
    FirstStep();
    RunsNil(GENESIS);
    RunsSnoc(GENESIS, [], GENESIS, Reopen(EXAMPLE));
    RunsSnoc(GENESIS, [] + [Reopen(EXAMPLE)], OPENED, Do(Op.Commit(FIRST)));
    assert [] + [Reopen(EXAMPLE)] + [Do(Op.Commit(FIRST))] == FIRST_EVENTS;
  }

  lemma RunsNil(w: World)
    ensures Runs(w, [], w)
  {
    hide Step, Possible;
  }

  const PLACED := PlacementRecord(1, 1, INTENT, NoIncumbent, 0, 0, 1, 1, 1, 0, 0, false)
  const LINE := Line(1, Placed(PLACED))

  lemma FirstWrites()
    ensures WellIndexed(EMPTY.mem)
    ensures CommitPlacement(EXAMPLE, EMPTY, FIRST).writes == [Append(LINE)]
    ensures CommitPlacement(EXAMPLE, EMPTY, FIRST).record == Some(PLACED)
  {
    hide CommitPlacement, CommitRecord, WellIndexed;
    FreshView();
    FirstOfFlow(EXAMPLE, EMPTY, FIRST, PLACED);
    RecordWrites(EXAMPLE, EMPTY, PLACED, LINE);
  }

  lemma FirstOfFlow(o: Options, s: Session, r: Request, p: PlacementRecord)
    requires WellIndexed(s.mem) && r.digestMatches && s.mem.maxSequence < o.maxTotalRecords
    requires r.intent.flow != 0 && r.intent.path != 0 && r.intent.pathAuthority != 0
    requires r.intent.attempt !in s.mem.commits && r.intent.flow !in s.mem.latest && p == NewRecord(s.mem, r, 1, 0)
    ensures CommitPlacement(o, s, r) == CommitRecord(o, s, p)
  {
    hide CommitRecord, NewRecord, WellIndexed, SameIntent;
  }

  lemma RecordWrites(o: Options, s: Session, p: PlacementRecord, line: Line)
    requires !o.readOnly && o.maxJournalRecords == 0
    requires PLACEMENT_BYTES <= o.maxRecordBytes && s.mem.maxSequence < o.maxTotalRecords
    requires line.item == Placed(p) && line.sequence == s.mem.maxSequence + 1
    ensures CommitRecord(o, s, p).writes == [Append(line)] && CommitRecord(o, s, p).record == Some(p)
  {
    hide WellIndexed, Compact;
  }

  const STRANDING := [Do(Finish(DONE)), Do(Op.Commit(SECOND)), Do(Fold), Event.Stop]

  /** What the files come to when attempt 1 finishes, attempt 2 takes its flow over and the store compacts. */
  ghost function Stranded(s: Session, d: Disk): Disk {
    hide *;
    var e2 := AppendAttemptTerminal(EXAMPLE, s, DONE);
    var e3 := CommitPlacement(EXAMPLE, e2.session, SECOND);
    ApplyWrites(ApplyWrites(ApplyWrites(d, e2.writes), e3.writes), Compact(EXAMPLE, e3.session).writes)
  }

  lemma StrandingRun(w: World, s: Session) returns (w': World)
    requires w.up == Some(Handle(EXAMPLE, s))
    ensures Runs(w, STRANDING, w') && w'.up.None? && w'.disk == Stranded(s, w.disk)
  {
    hide Step, Possible, CommitPlacement, AppendAttemptTerminal, Compact, ApplyWrites, WellIndexed, PlacedBy, Runs;
    RunsNil(w);
    var w1, s1 := StrandingStep(w, [], w, s, Finish(DONE));
    var w2, s2 := StrandingStep(w, [] + [Do(Finish(DONE))], w1, s1, Op.Commit(SECOND));
    var w3, s3 := StrandingStep(w, [] + [Do(Finish(DONE))] + [Do(Op.Commit(SECOND))], w2, s2, Fold);
    var es := [] + [Do(Finish(DONE))] + [Do(Op.Commit(SECOND))] + [Do(Fold)];
    w' := w3.(up := None);
    StepStop(w3);
    RunsSnoc(w, es, w3, Event.Stop);
    assert es + [Event.Stop] == STRANDING;
  }

  lemma StepStop(w: World)
    requires w.up.Some?
    ensures Possible(w, Event.Stop) && Step(w, Event.Stop) == w.(up := None)
  {
    hide Perform, ApplyWrites, PlacedBy, Interrupted, Open, WritesOf;
  }

  lemma StrandingStep(w0: World, es: seq<Event>, w: World, s: Session, op: Op) returns (w': World, s': Session)
    requires Runs(w0, es, w) && w.up == Some(Handle(EXAMPLE, s))
    ensures Runs(w0, es + [Do(op)], w') && w'.up == Some(Handle(EXAMPLE, s'))
    ensures var e := Perform(EXAMPLE, s, op); s' == e.session && w'.disk == ApplyWrites(w.disk, e.writes)
  {
    hide Perform, ApplyWrites, PlacedBy, Runs, Interrupted, Open;
    RunsSnoc(w0, es, w, Do(op));
    w' := Step(w, Do(op));
    s' := Perform(EXAMPLE, s, op).session;
  }

  lemma StrandedRefused(r: Options, d: Disk)
    ensures Open(r, Stranded(CommitPlacement(EXAMPLE, EMPTY, FIRST).session, d)).result.Err?
  {
    hide CommitPlacement, AppendAttemptTerminal, Compact, WellIndexed, Open, ApplyWrites, OwnsLatest;
    var e1 := CommitPlacement(EXAMPLE, EMPTY, FIRST);
    assert EMPTY.mem.attempts == map[] && EMPTY.mem.commits == map[] && EMPTY.mem.latest == map[];
    NobodyOwns(1);
    FreshAttemptWrites(EMPTY, FIRST);
    CommitIndexes(EXAMPLE, EMPTY, FIRST);
    ExampleFinish(e1.session);
    var e2 := AppendAttemptTerminal(EXAMPLE, e1.session, DONE);
    FreshAttemptWrites(e2.session, SECOND);
    var e3 := CommitPlacement(EXAMPLE, e2.session, SECOND);
    SupersededCommitStrands(EXAMPLE, EMPTY, FIRST, DONE, SECOND,
                            ApplyWrites(ApplyWrites(d, e2.writes), e3.writes), r);
  }

  /**
   A run from no files at all in which every operation is accepted, and after which no options open the
   files again.
   */
  lemma StrandedExample() returns (es: seq<Event>, w: World)
    ensures Runs(GENESIS, es, w) && w.up.None?
    ensures forall r: Options :: Open(r, w.disk).result.Err?
  {
    hide CommitPlacement, WellIndexed, Open, Stranded, Runs;
    FirstCommit();
    var w1 := Committed1();
    w := StrandingRun(w1, CommitPlacement(EXAMPLE, EMPTY, FIRST).session);
    es := FIRST_EVENTS + STRANDING;
    RunsOn(GENESIS, FIRST_EVENTS, w1, STRANDING, w);
    forall r: Options ensures Open(r, w.disk).result.Err? {
      StrandedRefused(r, w1.disk);
    }
  }

  lemma NobodyOwns(a: u64)
    ensures WellIndexed(EMPTY.mem) && !OwnsLatest(EMPTY.mem, a)
  {
  }

  lemma ExampleFinish(s: Session)
    requires WellIndexed(s.mem) && s.mem.attempts == map[] && s.mem.maxSequence < 1000
    ensures var e := AppendAttemptTerminal(EXAMPLE, s, DONE);
            e.code == OK && e.session.mem.commits == s.mem.commits && e.session.mem.maxSequence == s.mem.maxSequence + 1
            && e.session.mem.placements == s.mem.placements && e.session.mem.latest == s.mem.latest
  {
    hide MakeSnapshot, WellIndexed;
  }

  // ---- a smaller bound ---------------------------------------------------------------------------------

  const SMALL := EXAMPLE.(maxRecordBytes := 100)

  /** Fields below sixteen have no byte above fifteen. */
  lemma {:induction false} SmallFields(vs: seq<u64>)
    requires forall v <- vs :: v < 16
    ensures forall b <- PutU64s(vs) :: b < 16
    decreases |vs|
  {
    if vs != [] {
      assert vs[0] in vs;
      SmallDigits(vs[0], 8);
      assert forall v <- vs[1..] :: v in vs;
      SmallFields(vs[1..]);
    }
  }

  lemma {:induction false} SmallDigits(v: nat, n: nat)
    requires v < 16
    ensures forall b <- LE(v, n) :: b < 16
    ensures n > 0 ==> LE(v, n)[0] == v && forall i :: 1 <= i < n ==> LE(v, n)[i] == 0
    decreases n
  {
    if n > 0 {
      SmallDigits(0, n - 1);
      assert v / 256 == 0 && v % 256 == v;
      assert LE(v, n)[1..] == LE(0, n - 1);
      forall i | 1 <= i < n ensures LE(v, n)[i] == 0 { assert LE(v, n)[i] == LE(v, n)[1..][i - 1]; }
    }
  }

  lemma PlacedSmall()
    ensures |PlacementBytes(PLACED)| == 241 && forall b <- PlacementBytes(PLACED) :: b < 16
    ensures PlacementBytes(PLACED)[..8] == [1, 0, 0, 0, 0, 0, 0, 0]
  {
    hide LE, PutU64s;
    var a := [PLACED.id, PLACED.generation] + IntentFields(PLACED.intent);
    var b := [PLACED.digestHi, PLACED.digestLo, PLACED.committedBy, PLACED.commitEpoch, PLACED.sequence,
              PLACED.supersedesGeneration, I64Bits(PLACED.commitUnixNanos)];
    assert forall v <- a :: v < 16;
    SmallFields(a);
    SmallFields(b);
    assert PlacementBytes(PLACED) == PutU64s(a) + ([DeltaByte(PLACED.delta)] + PutU64s(b));
    assert a == [1] + a[1..];
    PutU64sCons(1, a[1..]);
    SmallDigits(1, 8);
    assert PlacementBytes(PLACED)[..8] == LE(1, 8);
  }

  /** The bytes of this record hold no other, whatever its checksums come to. */
  lemma NothingInside()
    ensures !LaterRecord(EntryBytes(EntryOf(LINE)), 100)
  {
    hide Crc, PlacementBytes, FromLE;
    var e := EntryOf(LINE);
    var b := EntryBytes(e);
    PlacedSmall();
    LineHeader();
    forall i | 1 <= i <= |b| ensures ParseEntry(b[i..], 100).Short? {
      if ParseEntry(b[i..], 100).Got? {
        NoMagic(b, i, 100);
        assert b[28..269] == e.payload;
        assert b[28] == b[28..269][..8][0];
        assert i == 24 by {
          forall k | 28 <= k < 269 ensures b[k] < 16 { assert b[28..269][k - 28] in b[28..269]; }
          InsideOnlyCrc(b, i);
        }
        KindInside(b);
      }
    }
  }

  lemma MagicDigits()
    ensures LE(RECORD_MAGIC, 4) == [0x46, 0x50, 0x52, 0x43]
  {
    assert LE(RECORD_MAGIC, 4) == [0x46] + LE(0x43_5250, 3);
    assert LE(0x43_5250, 3) == [0x50] + LE(0x4352, 2);
    assert LE(0x4352, 2) == [0x52] + LE(0x43, 1);
    assert LE(0x43, 1) == [0x43] + LE(0, 0);
  }

  lemma LengthDigits()
    ensures forall b <- LE(241, 4) :: b != 0x46
  {
    assert LE(241, 4) == [241] + LE(0, 3);
    SmallDigits(0, 3);
  }

  /** The fields of the header before its checksum. */
  lemma HeaderFront()
    ensures var h := LE(RECORD_MAGIC, 4) + LE(1, 4) + LE(1, 2) + LE(0, 2) + LE(1, 8) + LE(241, 4);
            |h| == 24 && forall i :: 1 <= i < 24 ==> h[i] != 0x46
  {
    hide LE;
    MagicDigits();
    LengthDigits();
    SmallDigits(1, 4);
    SmallDigits(1, 2);
    SmallDigits(0, 2);
    SmallDigits(1, 8);
    var m, f, l := LE(RECORD_MAGIC, 4), LE(1, 4) + LE(1, 2) + LE(0, 2) + LE(1, 8), LE(241, 4);
    assert forall b <- f :: b < 16;
    var h := m + f + l;
    assert h == LE(RECORD_MAGIC, 4) + LE(1, 4) + LE(1, 2) + LE(0, 2) + LE(1, 8) + LE(241, 4);
    forall i | 1 <= i < 24 ensures h[i] != 0x46 {
      if 4 <= i < 20 { assert h[i] in f; } else if 20 <= i { assert h[i] in l; }
    }
  }

  lemma LineHeader()
    ensures var b := EntryBytes(EntryOf(LINE));
            |b| == 277 && (forall i :: 1 <= i < 24 ==> b[i] != 0x46) && b[28..269] == PlacementBytes(PLACED)
  {
    hide Crc, PlacementBytes, LE;
    var e := EntryOf(LINE);
    var h := HeaderOf(e);
    var front := LE(RECORD_MAGIC, 4) + LE(1, 4) + LE(1, 2) + LE(0, 2) + LE(1, 8) + LE(241, 4);
    HeaderFront();
    assert e == Entry(PLACEMENT, 1, PlacementBytes(PLACED));
    assert h == front + LE(Crc(e.payload), 4);
    forall i | 1 <= i < 24 ensures EntryBytes(e)[i] != 0x46 {
      assert EntryBytes(e)[i] == h[i] == front[i];
    }
  }

  lemma InsideOnlyCrc(b: seq<byte>, i: nat)
    requires |b| == 277 && (forall k :: 1 <= k < 24 ==> b[k] != 0x46) && (forall k :: 28 <= k < 269 ==> b[k] < 16)
    requires b[28] == 1
    requires 1 <= i && i + OVERHEAD <= |b| && MagicAt(b, i)
    ensures i == 24
  {
  }

  /** A record at the checksum would have kind zero. */
  lemma KindInside(b: seq<byte>)
    requires |b| == 277 && b[28..269][..8] == [1, 0, 0, 0, 0, 0, 0, 0]
    ensures ParseEntry(b[24..], 100).Short?
  {
    var h := b[24..][..28];
    assert h[8..10] == [0, 0] by {
      assert h[8] == b[28..269][..8][4] && h[9] == b[28..269][..8][5];
    }
    assert h[8..10][1..] == [0] && [0][1..] == [];
    assert FromLE([0]) == 0 && FromLE(h[8..10]) == 0;
  }

  /**
   A placement acknowledged under one bound and lost to a reopening under a smaller one: the store opens,
   empty, and has cut the record off.
   */
  lemma SmallerBoundLoses() returns (w: World)
    ensures Runs(GENESIS, FIRST_EVENTS + [Event.Stop, Reopen(SMALL)], w) && w.log == [Durable(PLACED)]
    ensures CommitPlacement(EXAMPLE, EMPTY, FIRST).record == Some(PLACED)
    ensures OpenAndEmpty(w)
  {
    hide CommitPlacement, EntryBytes, EntryOf, WellIndexed, Open, Step, Possible, Runs;
    FirstCommit();
    FirstWrites();
    var w1 := Committed1();
    var w2 := w1.(up := None);
    StepStop(w1);
    RunsSnoc(GENESIS, FIRST_EVENTS, w1, Event.Stop);
    StepReopen(w2, SMALL);
    w := Step(w2, Reopen(SMALL));
    RunsSnoc(GENESIS, FIRST_EVENTS + [Event.Stop], w2, Reopen(SMALL));
    assert FIRST_EVENTS + [Event.Stop] + [Reopen(SMALL)] == FIRST_EVENTS + [Event.Stop, Reopen(SMALL)];
    SmallOpens(Filed());
  }

  /** The store is open, it knows of nothing, and its journal is empty. */
  predicate OpenAndEmpty(w: World) {
    w.up.Some? && w.up.value.session.mem == FRESH && JournalBytes(w.disk) == []
  }

  /** What an attempt to open does. */
  ghost predicate Opened(w: World, w': World, o: Options, opening: Opening) {
    && w'.up == (if opening.result.Ok? then Some(Handle(o, opening.result.value)) else None)
    && w'.disk == opening.disk && w'.log == w.log
  }

  lemma StepReopen(w: World, o: Options)
    requires w.up.None?
    ensures Possible(w, Reopen(o)) && Opened(w, Step(w, Reopen(o)), o, Open(o, w.disk))
  {
    hide Open, Perform, ApplyWrites, PlacedBy, Interrupted, WritesOf;
  }

  lemma SmallOpens(d: Disk)
    requires d == Disk(Some(EntryBytes(EntryOf(LINE))), None)
    ensures JournalBytes(Open(SMALL, d).disk) == []
    ensures match Open(SMALL, d).result case Ok(s) => s.mem == FRESH case Err(_) => false
  {
    hide EntryBytes, EntryOf, LaterRecord, Open, ParseEntry;
    var l := Ledger(None, [LINE], []);
    FrontBytes([LINE]);
    NoBytes([LINE][1..]);
    assert EntryBytes(EntryOf(LINE)) + [] == EntryBytes(EntryOf(LINE));
    assert Represents(d, l);
    NothingTorn();
    OpenReadsPrefix(SMALL, d, l);
    var a := AsRead(l, ReadLimit(SMALL));
    assert FirstUnread([LINE], 100) == 0;
    assert a.lines == [] && [LINE][0..] == [LINE];
    assert a.torn == EntryBytes(EntryOf(LINE));
    NothingInside();
    assert SettleAttempts(FRESH) == FRESH by { assert SettleAttempts(FRESH).attempts == map[]; }
    NoBytes(a.lines);
  }
}
