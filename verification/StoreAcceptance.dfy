/** Exactly when a store opens again: after a compaction, at its crash points, and on a cut journal. */
module StoreAcceptance {
  import opened Bytes
  import opened Ordered
  import opened Records
  import opened Journal
  import opened Recovery
  import opened StoreOps
  import opened StoreViews
  import opened StoreSafety
  import opened StoreReading
  import opened StoreRuns

  // ---- what a snapshot brings back ------------------------------------------------------------

  lemma {:induction false} IndexAllCommits(m: Mem, ps: seq<PlacementRecord>)
    ensures forall a: u64 :: a in IndexAll(m, ps).commits <==>
              a in m.commits || (a != 0 && exists p <- ps :: p.intent.attempt == a)
    decreases |ps|
  {
    if ps != [] {
      IndexAllCommits(Index(m, ps[0]), ps[1..]);
      assert forall p :: p in ps <==> p == ps[0] || p in ps[1..];
    }
  }

  lemma {:induction false} NoteAllAttempts(m: Mem, table: map<u64, AttemptRecord>, keys: seq<u64>, rs: seq<AttemptRecord>)
    requires |rs| == |keys|
    requires forall i :: 0 <= i < |keys| ==> keys[i] in table && rs[i] == table[keys[i]] && rs[i].attempt == keys[i]
    ensures var noted := NoteAll(m, rs).attempts;
            && (forall k :: k in noted <==> k in m.attempts || k in keys)
            && (forall k <- keys :: noted[k] == table[k])
            && (forall k :: k in noted && k !in keys ==> noted[k] == m.attempts[k])
    decreases |rs|
  {
    if rs != [] {
      NoteAllAttempts(Note(m, rs[0]), table, keys[1..], rs[1..]);
      assert forall k :: k in keys <==> k == keys[0] || k in keys[1..];
    }
  }

  lemma RetainedNamed(o: Options, m: Mem)
    requires WellIndexed(m)
    ensures var rs, keys := RetainedRecords(o, m), Ascending(RetainedKeys(o, m));
            && |rs| == |keys|
            && forall i :: 0 <= i < |keys| ==> keys[i] in m.attempts && rs[i] == m.attempts[keys[i]] && rs[i].attempt == keys[i]
  {
    hide RetainedRecords, RetainedKeys, Ascending;
    RetainedListed(o, m);
  }

  lemma RetainedAttempts(o: Options, m: Mem, base: Mem)
    requires WellIndexed(m) && base.attempts == map[]
    ensures NoteAll(base, RetainedRecords(o, m)).attempts == map k | k in RetainedKeys(o, m) :: m.attempts[k]
  {
    hide RetainedRecords, RetainedKeys, NoteAll, WellIndexed, Increasing;
    var rs, keys := RetainedRecords(o, m), Ascending(RetainedKeys(o, m));
    RetainedNamed(o, m);
    NoteAllAttempts(base, m.attempts, keys, rs);
  }

  lemma {:induction false} LatestAllMembers(m: Mem, flows: seq<u64>)
    requires WellIndexed(m)
    requires forall f <- flows :: f in m.latest
    ensures forall p :: p in LatestAll(m, flows) <==> exists f <- flows :: p == LatestOf(m, f)
    decreases |flows|
  {
    hide WellIndexed, LatestOf;
    if flows != [] {
      LatestAllMembers(m, flows[1..]);
      assert forall f :: f in flows <==> f == flows[0] || f in flows[1..];
      var ps := LatestAll(m, flows);
      assert ps == [LatestOf(m, flows[0])] + LatestAll(m, flows[1..]);
      forall p ensures p in ps <==> exists f <- flows :: p == LatestOf(m, f) {
      }
    }
  }

  /** The latest placement of some flow belongs to this attempt. */
  predicate OwnsLatest(m: Mem, attempt: u64) {
    WellIndexed(m) && exists f <- m.latest :: m.placements[m.latest[f]].intent.attempt == attempt
  }

  lemma SnapshotIndexes(o: Options, s: Session)
    requires WellIndexed(s.mem)
    ensures var m, n := s.mem, FromSnapshot(MakeSnapshot(o, s));
            && n.attempts == (map k | k in RetainedKeys(o, m) :: m.attempts[k])
            && (forall a: u64 :: a in n.commits <==> a != 0 && OwnsLatest(m, a))
  {
    hide IndexAll, NoteAll, RetainedRecords, LatestAll, Retained, WellIndexed, LatestRecords, OwnsLatest;
    var m, snap := s.mem, MakeSnapshot(o, s);
    IndexAllCommits(FRESH, snap.placements);
    IndexAllAttempts(FRESH, snap.placements);
    RetainedAttempts(o, m, IndexAll(FRESH, snap.placements));
    forall a: u64 ensures (exists p <- snap.placements :: p.intent.attempt == a) <==> OwnsLatest(m, a) {
      LatestOwners(m, a);
    }
  }

  lemma {:induction false} IndexAllAttempts(m: Mem, ps: seq<PlacementRecord>)
    ensures IndexAll(m, ps).attempts == m.attempts
    decreases |ps|
  {
    if ps != [] {
      IndexAllAttempts(Index(m, ps[0]), ps[1..]);
    }
  }

  lemma LatestOwners(m: Mem, a: u64)
    requires WellIndexed(m)
    ensures (exists p <- LatestRecords(m) :: p.intent.attempt == a) <==> OwnsLatest(m, a)
  {
    var flows := Ascending(m.latest.Keys);
    LatestAllMembers(m, flows);
    if OwnsLatest(m, a) {
      var f :| f in m.latest && m.placements[m.latest[f]].intent.attempt == a;
      assert f in flows && LatestOf(m, f) in LatestRecords(m);
    }
    if exists p <- LatestRecords(m) :: p.intent.attempt == a {
      var p :| p in LatestRecords(m) && p.intent.attempt == a;
      var f :| f in flows && p == LatestOf(m, f);
      assert f in m.latest;
    }
  }

  // ---- after a compaction ----------------------------------------------------------------------

  function SnapshotSize(o: Options, m: Mem): nat {
    32 + PLACEMENT_BYTES * |m.latest| + ATTEMPT_BYTES * |RetainedKeys(o, m)|
  }

  /**
   What a reader with options r needs of a store compacted under o: the snapshot fits its bounds, and
   every committed attempt still in the retention window owns the latest placement of some flow.
   */
  predicate Reopenable(r: Options, o: Options, m: Mem) {
    && SnapshotSize(o, m) <= r.maxRecordBytes && SnapshotSize(o, m) < 0x1_0000_0000
    && |m.latest| <= r.maxTotalRecords && |RetainedKeys(o, m)| <= r.maxTotalRecords
    && forall k <- RetainedKeys(o, m) :: m.attempts[k].phase == Committed ==> k != 0 && OwnsLatest(m, k)
  }

  /** The replay succeeded and left everything but the sequence as it was. */
  predicate AddsNothing(m: Mem, r: Result<Mem>) {
    r.Ok? && r.value == m.(maxSequence := r.value.maxSequence)
  }

  /** A replay that adds nothing to the snapshot decides nothing else. */
  lemma CompactedExactly(r: Options, o: Options, s: Session, d: Disk, l: Ledger)
    requires WellIndexed(s.mem) && Represents(d, l) && l.snapshot == Some(MakeSnapshot(o, s))
    requires Readable(l, ReadLimit(r)) && AddsNothing(Base(l), Replayed(l))
    ensures Open(r, d).result.Ok? <==> Reopenable(r, o, s.mem) && TailAcceptable(r, l.torn)
  {
    hide ParseEntry, Open, Represents, ReplayLines, LinesFit, FromSnapshot, TailAcceptable, WellIndexed, OwnsLatest, Retained,
         RetainedKeys, OrphanCommit, SnapshotPayload, MakeSnapshot;
    SnapshotSizes(o, s);
    OpenExactly(r, d, l);
    OrphanExactly(o, s);
    SameOrphans(Base(l), Replayed(l).value);
  }

  lemma SameOrphans(m: Mem, n: Mem)
    requires m.attempts == n.attempts && m.commits == n.commits
    ensures OrphanCommit(m) <==> OrphanCommit(n)
  {
  }

  lemma OrphanExactly(o: Options, s: Session)
    requires WellIndexed(s.mem)
    ensures !OrphanCommit(FromSnapshot(MakeSnapshot(o, s))) <==>
              forall k <- RetainedKeys(o, s.mem) :: s.mem.attempts[k].phase == Committed ==> k != 0 && OwnsLatest(s.mem, k)
  {
    hide FromSnapshot, MakeSnapshot, OwnsLatest, Retained, WellIndexed;
    SnapshotIndexes(o, s);
    var m, n := s.mem, FromSnapshot(MakeSnapshot(o, s));
    if OrphanCommit(n) {
      var k :| k in n.attempts && n.attempts[k].phase == Committed && k !in n.commits;
      assert k in RetainedKeys(o, m);
    } else {
      forall k | k in RetainedKeys(o, m) && m.attempts[k].phase == Committed ensures k != 0 && OwnsLatest(m, k) {
        assert k in n.attempts && n.attempts[k] == m.attempts[k];
      }
    }
  }

  lemma {:induction false} CoveredReplay(m: Mem, covered: u64, lines: seq<Line>)
    requires Plain(lines) && forall line <- lines :: line.sequence <= m.maxSequence
    ensures ReplayLines(m, covered, lines) == Ok(m)
    decreases |lines|
  {
    if lines != [] {
      CoveredReplay(m, covered, lines[1..]);
    }
  }

  /** A reset marker, whole or torn, never hides a record. */
  lemma TornMarker(line: Line, cut: seq<byte>, limit: u32)
    requires line.item.Reset? && cut <= EntryBytes(EntryOf(line))
    ensures !LaterRecord(cut, limit)
  {
    hide Crc32c.Crc, EntryBytes;
    MarkerStart(line);
    forall i | 1 <= i && i + OVERHEAD <= |cut| ensures !MagicAt(cut, i) {
      assert cut[i] == EntryBytes(EntryOf(line))[i];
    }
    NothingEmbedded(cut, limit);
  }

  lemma MarkerStart(line: Line)
    requires line.item.Reset?
    ensures var b := EntryBytes(EntryOf(line)); |b| == 8 + OVERHEAD && forall i :: 1 <= i <= 8 ==> b[i] != 0x46
  {
    hide Crc32c.Crc;
    var e := EntryOf(line);
    assert LE(RECORD_MAGIC, 4) == [0x46] + LE(0x43_5250, 3);
    assert LE(0x43_5250, 3) == [0x50] + LE(0x4352, 2);
    assert LE(0x4352, 2) == [0x52] + LE(0x43, 1);
    assert LE(0x43, 1) == [0x43] + LE(0, 0);
    assert LE(1, 4) == [1] + LE(0, 3);
    assert LE(0, 3) == [0] + LE(0, 2);
    assert LE(0, 2) == [0] + LE(0, 1);
    assert LE(0, 1) == [0] + LE(0, 0);
    assert LE(e.kind, 2) == [3] + LE(0, 1);
    var b := HeaderOf(e);
    assert b[..10] == LE(RECORD_MAGIC, 4) + LE(STORE_FORMAT_VERSION, 4) + LE(e.kind, 2);
    assert b[..10] == [0x46, 0x50, 0x52, 0x43, 1, 0, 0, 0, 3, 0];
    forall i | 1 <= i <= 8 ensures EntryBytes(e)[i] != 0x46 {
      assert EntryBytes(e)[i] == b[..10][i];
    }
  }

  /** A marker that the reader's bound excludes is found as a torn tail. */
  lemma UnreadMarker(d: Disk, l: Ledger, line: Line, limit: u32)
    requires Represents(d, l) && l.lines == [line] && l.torn == [] && line.item.Reset? && limit < 8
    ensures var b := EntryBytes(EntryOf(line));
            Represents(d, l.(lines := [], torn := b)) && b != [] && ParseEntry(b, limit).Short? && !LaterRecord(b, limit)
  {
    hide EntryBytes, EntryOf, ParseEntry, LaterRecord, SnapshotFile;
    var b := EntryBytes(EntryOf(line));
    FrontBytes(l.lines);
    NoBytes([]);
    assert l.lines[1..] == [] && b + [] == b && [] + b == b;
    ReadBackExactly(limit, line, []);
    TornMarker(line, b, limit);
  }

  /** How the reader finds the marker after the bytes `cut` of it: whole, torn, or not there. */
  predicate MarkerReads(r: Options, whole: bool, cut: seq<byte>) {
    || (cut == [] && (!whole || 8 <= ReadLimit(r)))
    || r.readOnly || r.repairTornTail
  }

  /**
   After the snapshot is in place, with the journal emptied and perhaps part or all of the marker written. A
   bound below the marker's size makes a torn tail of it.
   */
  lemma CompactedReopens(o: Options, s: Session, d: Disk, l: Ledger, log: seq<PlacementRecord>,
                         r: Options, k: nat, cut: seq<byte>)
    requires UpOk(o, s, d, l, log) && !o.readOnly && k >= 2 && Interruptible(Compact(o, s).writes, k, cut)
    ensures Open(r, Interrupted(d, Compact(o, s).writes, k, cut)).result.Ok? <==>
              Reopenable(r, o, s.mem) && MarkerReads(r, k == 3, cut)
  {
    hide Represents, UpOk, Open, Reopenable, WellIndexed, SnapshotSize, FromSnapshot, EntryBytes, EntriesBytes, EntryOf,
         EntriesOf, SnapshotFile, MakeSnapshot, LaterRecord, ParseEntry, AsRead, Base, ReplayLines, TailAcceptable;
    UpIsOk(o, s, d, l, log);
    Untorn(o, s, d, l, log);
    var ws := Compact(o, s).writes;
    var d' := Interrupted(d, ws, k, cut);
    var l' := LedgerWrites(l, First(ws, k));
    WritesRepresent(d, l, First(ws, k));
    CompactLedger(o, s, l, k);
    SnapshotView(o, s);
    if cut != [] {
      TornRepresents(ApplyWrites(d, First(ws, k)), l', cut);
      l' := l'.(torn := cut);
      assert ws[k].Append? && ws[k].line.item.Reset?;
      TornMarker(ws[k].line, cut, ReadLimit(r));
      CutEntryNeverParses(EntryOf(ws[k].line), |cut|, ReadLimit(r));
      Acceptable(r, cut);
    } else {
      EmptyShort(ReadLimit(r));
      NothingLater(r);
    }
    if k == 3 && ReadLimit(r) < 8 {
      UnreadMarker(d', l', l'.lines[0], ReadLimit(r));
      l' := l'.(lines := [], torn := EntryBytes(EntryOf(l'.lines[0])));
      Acceptable(r, l'.torn);
    }
    CompactedBase(o, s, l');
    MarkerReplay(Base(l'), l'.lines);
    CompactedExactly(r, o, s, d', l');
  }

  lemma CompactedBase(o: Options, s: Session, l: Ledger)
    requires WellIndexed(s.mem) && l.snapshot == Some(MakeSnapshot(o, s))
    ensures Base(l).maxSequence == s.mem.maxSequence
  {
    hide WellIndexed, MakeSnapshot, FromSnapshot;
    SnapshotView(o, s);
  }

  lemma NothingLater(r: Options)
    ensures TailAcceptable(r, [])
  {
  }

  lemma Acceptable(r: Options, torn: seq<byte>)
    requires !LaterRecord(torn, ReadLimit(r))
    ensures TailAcceptable(r, torn) <==> torn == [] || r.readOnly || r.repairTornTail
  {
    hide LaterRecord;
  }

  lemma TornRepresents(d: Disk, l: Ledger, cut: seq<byte>)
    requires Represents(d, l) && l.torn == []
    ensures Represents(d.(journal := Some(JournalBytes(d) + cut)), l.(torn := cut))
  {
    hide EntriesBytes, EntriesOf, SnapshotFile;
    NoBytes(l.lines);
    assert JournalBytes(d) == EntriesBytes(EntriesOf(l.lines));
  }

  lemma EmptyShort(limit: u32)
    ensures ParseEntry([], limit).Short?
  {
  }

  lemma CompactLedger(o: Options, s: Session, l: Ledger, k: nat)
    requires WellIndexed(s.mem) && !o.readOnly && l.torn == [] && 2 <= k <= |Compact(o, s).writes|
    ensures LedgerWrites(l, First(Compact(o, s).writes, k)) ==
            Ledger(Some(MakeSnapshot(o, s)), if k == 2 then [] else [Line(1, Reset(s.mem.maxSequence))], [])
  {
    hide WellIndexed, MakeSnapshot;
    var ws := Compact(o, s).writes[..k];
    var l1 := LedgerWrite(l, ws[0]);
    var l2 := LedgerWrite(l1, ws[1]);
    assert LedgerWrites(l, ws) == LedgerWrites(l1, ws[1..]);
    assert LedgerWrites(l1, ws[1..]) == LedgerWrites(l2, ws[1..][1..]);
    if k == 3 {
      assert ws[1..][1..][0] == ws[2];
      assert LedgerWrites(l2, ws[1..][1..]) == LedgerWrites(LedgerWrite(l2, ws[2]), []);
    }
  }

  lemma MarkerReplay(m: Mem, lines: seq<Line>)
    requires lines == [] || (|lines| == 1 && lines[0].item == Reset(m.maxSequence) && lines[0].sequence == 1)
    ensures AddsNothing(m, ReplayLines(m, m.maxSequence, lines))
  {
    if lines != [] {
      assert lines[1..] == [];
      assert ReplayLines(m.(maxSequence := 1), m.maxSequence, lines[1..]) == Ok(m.(maxSequence := 1));
    }
  }

  lemma BetweenUnmarked(o: Options, s: Session, d: Disk, l: Ledger, log: seq<PlacementRecord>, r: Options)
    requires UpOk(o, s, d, l, log) && !o.readOnly && Plain(l.lines)
    ensures Open(r, ApplyWrite(d, ReplaceSnapshot(MakeSnapshot(o, s)))).result.Ok? <==>
              Reopenable(r, o, s.mem) && TailAcceptable(r, AsRead(l, ReadLimit(r)).torn)
  {
    hide Represents, Open, Reopenable, SnapshotSize, FromSnapshot, MakeSnapshot, ParseEntry, ApplyWrite,
         ViewOf, LogView, Chain, ReplayLines, SnapshotReadable, SnapshotPayload, TailAcceptable, EntriesBytes, EntriesOf, LinesFit,
         WellIndexed;
    Untorn(o, s, d, l, log);
    var w := ReplaceSnapshot(MakeSnapshot(o, s));
    var l' := LedgerWrite(l, w);
    var d' := ApplyWrite(d, w);
    var a := AsRead(l', ReadLimit(r));
    WriteRepresents(d, l, w);
    AsReadRepresents(d', l', ReadLimit(r));
    AsReadTorn(l', ReadLimit(r));
    AsReadFits(l', ReadLimit(r));
    AsReadPrefix(l', ReadLimit(r));
    SnapshotView(o, s);
    SnapshotSizes(o, s);
    PlainEnds(l.lines, Base(l).maxSequence);
    assert forall line <- a.lines :: line in l.lines;
    CoveredReplay(Base(a), Base(a).maxSequence, a.lines);
    CompactedExactly(r, o, s, d', a);
  }

  lemma BetweenMarked(o: Options, s: Session, d: Disk, l: Ledger, log: seq<PlacementRecord>, r: Options)
    requires UpOk(o, s, d, l, log) && !o.readOnly && Mismatched(l, s) && 8 <= ReadLimit(r)
    ensures Open(r, ApplyWrite(d, ReplaceSnapshot(MakeSnapshot(o, s)))).result.Err?
  {
    hide Represents, Open, Reopenable, SnapshotSize, FromSnapshot, MakeSnapshot, ParseEntry, ApplyWrite,
         ViewOf, LogView, Chain, ReplayLines, SnapshotReadable, SnapshotPayload, TailAcceptable, EntriesBytes, EntriesOf, LinesFit,
         WellIndexed;
    Untorn(o, s, d, l, log);
    var w := ReplaceSnapshot(MakeSnapshot(o, s));
    var l' := LedgerWrite(l, w);
    var d' := ApplyWrite(d, w);
    var a := AsRead(l', ReadLimit(r));
    WriteRepresents(d, l, w);
    AsReadRepresents(d', l', ReadLimit(r));
    AsReadTorn(l', ReadLimit(r));
    AsReadFits(l', ReadLimit(r));
    SnapshotView(o, s);
    MismatchRefused(a);
    OpenExactly(r, d', a);
  }

  /**
   Between the two renames the new snapshot stands beside the old journal. An unmarked journal is skipped
   record by record, so only the snapshot decides, and the tail if the reader's bound makes one; a marked
   journal is refused unless its marker happens to name the new snapshot's sequence.
   */
  lemma BetweenRenames(o: Options, s: Session, d: Disk, l: Ledger, log: seq<PlacementRecord>, r: Options)
    requires UpOk(o, s, d, l, log) && !o.readOnly
    ensures var opening := Open(r, ApplyWrite(d, ReplaceSnapshot(MakeSnapshot(o, s))));
            && (Plain(l.lines) ==>
                  (opening.result.Ok? <==> Reopenable(r, o, s.mem) && TailAcceptable(r, AsRead(l, ReadLimit(r)).torn)))
            && (Mismatched(l, s) && 8 <= ReadLimit(r) ==> opening.result.Err?)
  {
    hide UpOk, Open, Reopenable, MakeSnapshot, ApplyWrite, TailAcceptable, Plain, Mismatched, AsRead, ReadLimit;
    if Plain(l.lines) { BetweenUnmarked(o, s, d, l, log, r); }
    if Mismatched(l, s) && 8 <= ReadLimit(r) { BetweenMarked(o, s, d, l, log, r); }
  }

  /** The journal's marker names another sequence than the memory has reached. */
  predicate Mismatched(l: Ledger, s: Session) {
    l.lines != [] && l.lines[0].item.Reset? && l.lines[0].item.covered != s.mem.maxSequence
  }

  lemma SnapshotSizes(o: Options, s: Session)
    requires WellIndexed(s.mem)
    ensures |SnapshotPayload(MakeSnapshot(o, s))| == SnapshotSize(o, s.mem)
    ensures |MakeSnapshot(o, s).placements| == |s.mem.latest| && |MakeSnapshot(o, s).attempts| == |RetainedKeys(o, s.mem)|
    ensures forall p <- MakeSnapshot(o, s).placements :: p.requiresRevalidation
  {
    hide WellIndexed;
    assert |s.mem.latest.Keys| == |s.mem.latest|;
  }
}
