/** Crash safety of the store over every run of operations, compactions, crashes and reopenings. */
module StoreSafety {
  import opened Bytes
  import opened Records
  import opened Journal
  import opened Recovery
  import opened StoreOps
  import opened StoreViews

  // ---- operations -----------------------------------------------------------------------

  datatype Op = Start(attempt: AttemptRecord) | Finish(attempt: AttemptRecord) | Commit(request: Request) | Fold

  function Perform(o: Options, s: Session, op: Op): (e: Effect)
    ensures WellIndexed(s.mem) ==> WellIndexed(e.session.mem)
  {
    hide *;
    match op
    case Start(a) => AppendAttemptStart(o, s, a)
    case Finish(a) => AppendAttemptTerminal(o, s, a)
    case Commit(r) => CommitPlacement(o, s, r)
    case Fold => Compact(o, s)
  }

  /** The placement a durable step adds to the history, if it adds one. */
  function Added(w: Write): seq<PlacementRecord> {
    if w.Append? && w.line.item.Placed? then [Durable(w.line.item.placement)] else []
  }

  /** The placements a list of durable steps adds, in order. */
  function PlacedBy(ws: seq<Write>): seq<PlacementRecord> {
    if ws == [] then [] else Added(ws[0]) + PlacedBy(ws[1..])
  }

  lemma {:induction false} PlacedByAppend(a: seq<Write>, b: seq<Write>)
    ensures PlacedBy(a + b) == PlacedBy(a) + PlacedBy(b)
    decreases |a|
  {
    if a == [] {
      assert a + b == b;
    } else {
      assert (a + b)[0] == a[0] && (a + b)[1..] == a[1..] + b;
      PlacedByAppend(a[1..], b);
    }
  }

  // ---- the history every placement belongs to -------------------------------------------

  function LogView(log: seq<PlacementRecord>): View {
    AdvanceAll(NOTHING, log)
  }

  /** p is what a commit after log writes: the next identity, the next generation of its flow. */
  predicate Follows(log: seq<PlacementRecord>, p: PlacementRecord) {
    var v := LogView(log);
    && p.requiresRevalidation
    && p.id == v.nextId < MAX_U64
    && if p.intent.flow in v.latest
       then p.supersedesGeneration == v.latest[p.intent.flow].generation && p.generation == p.supersedesGeneration + 1
       else p.generation == 1 && p.supersedesGeneration == 0
  }

  /** A placement continues the history. */
  predicate Appendable(log: seq<PlacementRecord>, line: Line) {
    line.item.Placed? ==> Follows(log, Durable(line.item.placement))
  }

  predicate Chain(log: seq<PlacementRecord>)
    decreases |log|
  {
    log == [] || (Chain(log[..|log| - 1]) && Follows(log[..|log| - 1], log[|log| - 1]))
  }

  // ---- the disk as records ----------------------------------------------------------------

  /** What the files hold: a snapshot, the journal's records, and the bytes of a torn last append. */
  datatype Ledger = Ledger(snapshot: Option<Snapshot>, lines: seq<Line>, torn: seq<byte>)

  function Base(l: Ledger): (m: Mem)
    ensures WellIndexed(m)
  {
    match l.snapshot case None => FreshView(); FRESH case Some(s) => FromSnapshot(s)
  }

  ghost predicate Represents(d: Disk, l: Ledger) {
    && d.snapshot == (match l.snapshot case None => None case Some(s) => Some(SnapshotFile(s)))
    && (match d.journal
        case None => l.lines == [] && l.torn == []
        case Some(bytes) => bytes == EntriesBytes(EntriesOf(l.lines)) + l.torn)
  }

  predicate Plain(lines: seq<Line>) {
    forall line <- lines :: !line.item.Reset?
  }

  /** A reset marker can only be the first record. */
  predicate Shape(lines: seq<Line>) {
    Plain(lines) || Plain(lines[1..])
  }

  /** The journal continues this snapshot: it is unmarked, or its marker names the snapshot's sequence. */
  predicate Continues(l: Ledger) {
    l.lines == [] || !l.lines[0].item.Reset? || l.lines[0].item.covered == Base(l).maxSequence
  }

  predicate SnapshotMarked(s: Snapshot) {
    forall p <- s.placements :: p.requiresRevalidation
  }

  predicate LinesFit(lines: seq<Line>, limit: int) {
    forall line <- lines :: PayloadSize(line.item) <= limit
  }

  /** Everything the files hold comes from the history. */
  predicate DrawnFrom(l: Ledger, log: seq<PlacementRecord>) {
    && (l.snapshot.Some? ==> forall p <- l.snapshot.value.placements :: p in log)
    && (forall line <- l.lines :: line.item.Placed? ==> Durable(line.item.placement) in log)
  }

  /** The history the files denote when the journal continues the snapshot. */
  function Denotes(l: Ledger): View {
    AdvanceAll(ViewOf(Base(l)), Applied(l.lines, Base(l).maxSequence))
  }

  /** Nothing, or the first bytes of an append that did not complete. */
  ghost predicate Torn(b: seq<byte>) {
    b == [] || exists line: Line :: StrictPrefix(b, EntryBytes(EntryOf(line)))
  }

  predicate StrictPrefix(a: seq<byte>, b: seq<byte>) {
    |a| < |b| && a == b[..|a|]
  }

  /** The files hold the history. */
  ghost predicate LedgerOk(l: Ledger, log: seq<PlacementRecord>) {
    && Chain(log)
    && (l.snapshot.Some? ==> SnapshotMarked(l.snapshot.value))
    && Shape(l.lines) && Torn(l.torn)
    && DrawnFrom(l, log)
    && (Continues(l) ==> Denotes(l) == LogView(log))
  }

  /** The largest record a store with these options writes. */
  function Widest(o: Options): nat {
    if o.maxRecordBytes < PLACEMENT_BYTES then o.maxRecordBytes else PLACEMENT_BYTES
  }

  /** No record can be written: a rebased store that could not write its marker is in this position. */
  predicate CannotAppend(o: Options) {
    o.maxRecordBytes < 8 || o.maxTotalRecords == 0
  }

  /** An open store agrees with its files and with the history. */
  ghost predicate UpOk(o: Options, s: Session, d: Disk, l: Ledger, log: seq<PlacementRecord>) {
    && WellIndexed(s.mem)
    && LedgerOk(l, log) && Represents(d, l) && (l.torn == [] || o.readOnly)
    && Continues(l)
    && ViewOf(s.mem) == LogView(log)
    && (s.mem.maxSequence == EndSequence(l.lines, Base(l).maxSequence)
        || (l.lines == [] && s.mem.maxSequence == 0 && CannotAppend(o)))
    && (forall p <- s.mem.placements :: Durable(p) in log)
  }

  function LedgerWrite(l: Ledger, w: Write): Ledger {
    match w
    case Append(line) => l.(lines := l.lines + [line])
    case ReplaceSnapshot(s) => l.(snapshot := Some(s))
    case EmptyJournal => l.(lines := [])
  }

  function LedgerWrites(l: Ledger, ws: seq<Write>): Ledger
    decreases |ws|
  {
    if ws == [] then l else LedgerWrites(LedgerWrite(l, ws[0]), ws[1..])
  }

  // ---- one durable step ------------------------------------------------------------------

  lemma WriteRepresents(d: Disk, l: Ledger, w: Write)
    requires Represents(d, l) && l.torn == []
    ensures Represents(ApplyWrite(d, w), LedgerWrite(l, w))
  {
    hide EntryBytes, EntryOf, SnapshotFile;
    if w.Append? {
      var e := EntryOf(w.line);
      EntriesOfAppend(l.lines, [w.line]);
      EntriesBytesAppend(EntriesOf(l.lines), [e]);
      assert [w.line][1..] == [] && [e][1..] == [];
      assert EntriesOf([w.line]) == [e] + EntriesOf([]) == [e];
      assert EntriesBytes([e]) == EntryBytes(e) + EntriesBytes([]) == EntryBytes(e);
      assert l.lines == [] ==> EntriesBytes(EntriesOf(l.lines)) == [];
      assert JournalBytes(d) == EntriesBytes(EntriesOf(l.lines));
      var bytes := JournalBytes(d) + EntryBytes(e);
      assert EntriesBytes(EntriesOf(l.lines + [w.line])) == bytes && bytes + [] == bytes;
    }
  }

  lemma {:induction false} WritesRepresent(d: Disk, l: Ledger, ws: seq<Write>)
    requires Represents(d, l) && l.torn == []
    ensures Represents(ApplyWrites(d, ws), LedgerWrites(l, ws)) && LedgerWrites(l, ws).torn == []
    decreases |ws|
  {
    hide Represents, ApplyWrite;
    if ws != [] {
      WriteRepresents(d, l, ws[0]);
      WritesRepresent(ApplyWrite(d, ws[0]), LedgerWrite(l, ws[0]), ws[1..]);
    }
  }

  /** Appending the next record keeps the ledger in step with the history. */
  lemma AppendKeeps(l: Ledger, log: seq<PlacementRecord>, line: Line)
    requires LedgerOk(l, log) && Continues(l) && !line.item.Reset?
    requires line.sequence == EndSequence(l.lines, Base(l).maxSequence) + 1
    requires Appendable(log, line)
    ensures var log' := log + Added(Append(line));
            var l' := LedgerWrite(l, Append(line));
            && LedgerOk(l', log') && Continues(l')
            && EndSequence(l'.lines, Base(l').maxSequence) == line.sequence
  {
    hide ViewOf, Follows, LogView, SnapshotMarked, Torn;
    var l' := LedgerWrite(l, Append(line));
    var end := EndSequence(l.lines, Base(l).maxSequence);
    AppliedAppend(l.lines, [line], Base(l).maxSequence);
    assert Applied([line][1..], line.sequence) == [] && EndSequence([line][1..], line.sequence) == line.sequence;
    assert Shape(l'.lines) by { ShapeGrows(l.lines, line); }
    if line.item.Placed? {
      var p := line.item.placement;
      assert Applied(l'.lines, Base(l).maxSequence) == Applied(l.lines, Base(l).maxSequence) + [p];
      AdvanceOne(ViewOf(Base(l)), Applied(l.lines, Base(l).maxSequence), p);
      LogGrows(log, Durable(p));
      assert Added(Append(line)) == [Durable(p)];
    } else {
      assert Applied(l'.lines, Base(l).maxSequence) == Applied(l.lines, Base(l).maxSequence);
      assert Added(Append(line)) == [] && log + [] == log;
    }
  }

  lemma ShapeGrows(lines: seq<Line>, line: Line)
    requires Shape(lines) && !line.item.Reset?
    ensures Shape(lines + [line])
  {
    if lines != [] {
      assert (lines + [line])[1..] == lines[1..] + [line];
    }
  }

  lemma LogGrows(log: seq<PlacementRecord>, p: PlacementRecord)
    requires Chain(log) && Follows(log, p)
    ensures Chain(log + [p])
    ensures LogView(log + [p]) == Advance(LogView(log), p)
  {
    hide Follows;
    assert (log + [p])[..|log|] == log;
    AdvanceOne(NOTHING, log, p);
  }

  lemma {:induction false} IdsBelow(log: seq<PlacementRecord>)
    requires Chain(log)
    ensures forall p <- log :: p.id < MAX_U64
    decreases |log|
  {
    if log != [] {
      IdsBelow(log[..|log| - 1]);
      assert log == log[..|log| - 1] + [log[|log| - 1]];
    }
  }

  /** The next identity counts the history. */
  lemma {:induction false} LogNext(log: seq<PlacementRecord>)
    requires Chain(log)
    ensures LogView(log).nextId == |log| + 1
    decreases |log|
  {
    if log != [] {
      var init, p := log[..|log| - 1], log[|log| - 1];
      LogNext(init);
      LogGrows(init, p);
      assert log == init + [p];
    }
  }

  lemma {:induction false} AppliedDrawn(lines: seq<Line>, current: u64)
    ensures forall p <- Applied(lines, current) :: exists line <- lines :: line.item == Placed(p)
    decreases |lines|
  {
    if lines != [] {
      var l := lines[0];
      AppliedDrawn(lines[1..], l.sequence);
      AppliedDrawn(lines[1..], current);
      forall p | p in Applied(lines, current) ensures exists line <- lines :: line.item == Placed(p) {
        if p in Applied(lines[1..], l.sequence) {
          var line :| line in lines[1..] && line.item == Placed(p);
          assert line in lines;
        } else if p in Applied(lines[1..], current) {
          var line :| line in lines[1..] && line.item == Placed(p);
          assert line in lines;
        } else {
          assert l in lines && l.item == Placed(p);
        }
      }
    }
  }

  // ---- the crash points of a compaction ------------------------------------------------

  lemma {:induction false} PlainEnds(lines: seq<Line>, current: u64)
    requires Plain(lines)
    ensures EndSequence(lines, current) >= current
    ensures forall line <- lines :: line.sequence <= EndSequence(lines, current)
    decreases |lines|
  {
    if lines != [] {
      var l := lines[0];
      PlainEnds(lines[1..], if l.item.Reset? || l.sequence > current then l.sequence else current);
      assert forall line <- lines :: line == l || line in lines[1..];
    }
  }

  lemma {:induction false} CoveredAreSkipped(lines: seq<Line>, current: u64)
    requires Plain(lines)
    requires forall line <- lines :: line.sequence <= current
    ensures Applied(lines, current) == []
    decreases |lines|
  {
    if lines != [] {
      CoveredAreSkipped(lines[1..], current);
    }
  }

  /** Between the two renames: the new snapshot beside the old journal. */
  lemma SnapshotReplacedKeeps(o: Options, s: Session, d: Disk, l: Ledger, log: seq<PlacementRecord>)
    requires UpOk(o, s, d, l, log) && l.torn == []
    requires SnapshotMarked(MakeSnapshot(o, s))
    ensures LedgerOk(l.(snapshot := Some(MakeSnapshot(o, s))), log)
  {
    hide ViewOf, Represents, FromSnapshot, MakeSnapshot, SnapshotMarked, WellIndexed, Torn, Chain;
    var snap := MakeSnapshot(o, s);
    var l' := l.(snapshot := Some(snap));
    var top := s.mem.maxSequence;
    SnapshotView(o, s);
    SnapshotDrawn(o, s, log);
    assert Base(l') == FromSnapshot(snap);
    if Continues(l') {
      if l.lines == [] {
        assert Applied(l.lines, top) == [];
      } else if l.lines[0].item.Reset? {
        // The old marker happens to name the new snapshot: replaying the same records again is harmless.
        assert Applied(l.lines, top) == Applied(l.lines, Base(l).maxSequence);
        AppliedDrawn(l.lines, top);
        IdsBelow(log);
        var ps := Applied(l.lines, top);
        forall p | p in ps ensures p.id < MAX_U64 {
          var line :| line in l.lines && line.item == Placed(p);
          assert Durable(p) in log;
        }
        AdvanceTwice(ViewOf(Base(l)), ps);
      } else {
        assert Plain(l.lines) by { PlainWhole(l.lines); }
        PlainEnds(l.lines, Base(l).maxSequence);
        CoveredAreSkipped(l.lines, top);
      }
    }
  }

  lemma PlainWhole(lines: seq<Line>)
    requires lines != [] && Shape(lines) && !lines[0].item.Reset?
    ensures Plain(lines)
  {
    assert forall line <- lines :: line == lines[0] || line in lines[1..];
  }

  lemma SnapshotDrawn(o: Options, s: Session, log: seq<PlacementRecord>)
    requires WellIndexed(s.mem)
    requires forall p <- s.mem.placements :: Durable(p) in log
    ensures forall p <- MakeSnapshot(o, s).placements :: p in log
  {
    LatestDrawn(s.mem, Ordered.Ascending(s.mem.latest.Keys), log);
  }

  lemma {:induction false} LatestDrawn(m: Mem, flows: seq<u64>, log: seq<PlacementRecord>)
    requires WellIndexed(m)
    requires forall f <- flows :: f in m.latest
    requires forall p <- m.placements :: Durable(p) in log
    ensures forall p <- LatestAll(m, flows) :: p in log
    decreases |flows|
  {
    if flows != [] {
      LatestDrawn(m, flows[1..], log);
      assert LatestOf(m, flows[0]) in log by { assert m.placements[m.latest[flows[0]]] in m.placements; }
    }
  }

  /** After both renames, before the marker: an empty journal. */
  lemma JournalEmptiedKeeps(o: Options, s: Session, l: Ledger, log: seq<PlacementRecord>)
    requires WellIndexed(s.mem) && ViewOf(s.mem) == LogView(log)
    requires LedgerOk(l, log) && l.torn == [] && l.snapshot == Some(MakeSnapshot(o, s))
    ensures LedgerOk(l.(lines := []), log)
  {
    hide ViewOf, FromSnapshot, MakeSnapshot, SnapshotMarked, WellIndexed, Torn, Chain;
    SnapshotView(o, s);
  }

  /** With the marker written the compaction is complete. */
  lemma MarkerKeeps(o: Options, s: Session, l: Ledger, log: seq<PlacementRecord>, line: Line)
    requires WellIndexed(s.mem) && ViewOf(s.mem) == LogView(log)
    requires LedgerOk(l, log) && l.lines == [] && l.torn == [] && l.snapshot == Some(MakeSnapshot(o, s))
    requires line == Line(1, Reset(s.mem.maxSequence))
    ensures var l' := l.(lines := [line]);
            LedgerOk(l', log) && Continues(l') && EndSequence(l'.lines, Base(l').maxSequence) == 1
  {
    hide ViewOf, FromSnapshot, MakeSnapshot, SnapshotMarked, WellIndexed, Torn, Chain;
    SnapshotView(o, s);
    assert Applied([line][1..], 1) == [] && EndSequence([line][1..], 1) == 1;
  }

  // ---- opening what the files hold -------------------------------------------------------

  lemma {:induction false} EntriesFit(lines: seq<Line>, limit: u32)
    requires LinesFit(lines, limit)
    ensures forall e <- EntriesOf(lines) :: |e.payload| <= limit
    decreases |lines|
  {
    hide PayloadOf;
    if lines != [] {
      assert forall line <- lines[1..] :: line in lines;
      EntriesFit(lines[1..], limit);
      var es := EntriesOf(lines);
      assert forall e <- es :: e == EntryOf(lines[0]) || e in EntriesOf(lines[1..]);
    }
  }

  lemma {:induction false} IndexAllPlacements(m: Mem, ps: seq<PlacementRecord>)
    ensures IndexAll(m, ps).placements == m.placements + ps
    decreases |ps|
  {
    if ps != [] {
      IndexAllPlacements(Index(m, ps[0]), ps[1..]);
      assert m.placements + [ps[0]] + ps[1..] == m.placements + ps;
    }
  }

  lemma BaseDrawn(l: Ledger, log: seq<PlacementRecord>)
    requires DrawnFrom(l, log)
    requires l.snapshot.Some? ==> SnapshotMarked(l.snapshot.value)
    ensures forall p <- Base(l).placements :: Durable(p) in log
  {
    hide IndexAll, NoteAll, SnapshotPayload;
    if l.snapshot.Some? {
      var ps := l.snapshot.value.placements;
      IndexAllPlacements(FRESH, ps);
      assert Base(l).placements == [] + ps == ps;
      assert forall p <- ps :: Durable(p) == p;
    }
  }

  lemma {:induction false} ReplayDrawn(m: Mem, covered: u64, lines: seq<Line>, log: seq<PlacementRecord>)
    requires forall p <- m.placements :: Durable(p) in log
    requires forall line <- lines :: line.item.Placed? ==> Durable(line.item.placement) in log
    requires ReplayLines(m, covered, lines).Ok?
    ensures forall p <- ReplayLines(m, covered, lines).value.placements :: Durable(p) in log
    decreases |lines|
  {
    if lines != [] {
      var m1 := ApplyLine(m, covered, lines[0]).value;
      assert forall p <- m1.placements :: Durable(p) in log by {
        assert lines[0] in lines;
      }
      assert forall line <- lines[1..] :: line in lines;
      ReplayDrawn(m1, covered, lines[1..], log);
    }
  }

  /** The journal scan sees exactly the records and the torn bytes the ledger says. */
  lemma ScanOfLedger(limit: u32, l: Ledger, bytes: seq<byte>)
    requires LinesFit(l.lines, limit) && ParseEntry(l.torn, limit).Short?
    requires bytes == EntriesBytes(EntriesOf(l.lines)) + l.torn
    ensures Scan(bytes, limit) == Scanned(EntriesOf(l.lines), l.torn)
  {
    hide ParseEntry, EntriesOf, EntriesBytes, Scan, LinesFit;
    EntriesFit(l.lines, limit);
    ScanBack(EntriesOf(l.lines), l.torn, limit);
    ScanShort(l.torn, limit);
    assert EntriesOf(l.lines) + [] == EntriesOf(l.lines);
  }

  /** What loading the journal may answer when its records replay as r. */
  ghost predicate Loads(o: Options, d: Disk, l: Ledger, r: Result<Mem>, loaded: Opening) {
    && loaded.disk.snapshot == d.snapshot
    && match r
       case Err(code) => loaded == Opening(d, Err(code))
       case Ok(m) =>
         && (loaded.result.Err? ==> loaded.disk == d && l.torn != [])
         && (loaded.result.Ok? ==>
              loaded.result.value.mem == m && Represents(loaded.disk, if o.readOnly then l else l.(torn := [])))
         && (l.torn == [] ==> loaded.result.Ok? && loaded.disk == d)
  }

  /** What loading the journal answers, said of records. */
  lemma LoadOfLedger(o: Options, d: Disk, l: Ledger)
    requires Represents(d, l)
    requires LinesFit(l.lines, ReadLimit(o)) && ParseEntry(l.torn, ReadLimit(o)).Short?
    ensures Loads(o, d, l, ReplayLines(Base(l), Base(l).maxSequence, l.lines), LoadJournal(o, Base(l), d))
  {
    hide ParseEntry, EntriesBytes, Scan, ReplayLines, Replay, LinesFit, FromSnapshot, SnapshotFile, EntriesOf, LaterRecord;
    var m := Base(l);
    ReplayOfLines(m, m.maxSequence, l.lines);
    if d.journal.Some? {
      var bytes := d.journal.value;
      ScanOfLedger(ReadLimit(o), l, bytes);
      var whole := EntriesBytes(EntriesOf(l.lines));
      assert bytes[..|bytes| - |l.torn|] == whole && whole + [] == whole;
    } else {
      NoLines(m, l.lines);
    }
  }

  lemma NoLines(m: Mem, lines: seq<Line>)
    requires lines == []
    ensures ReplayLines(m, m.maxSequence, lines) == Ok(m)
  {
  }

  lemma MismatchRefused(l: Ledger)
    requires !Continues(l)
    ensures ReplayLines(Base(l), Base(l).maxSequence, l.lines).Err?
  {
  }

  lemma SettleView(m: Mem)
    requires WellIndexed(m)
    ensures WellIndexed(SettleAttempts(m)) && ViewOf(SettleAttempts(m)) == ViewOf(m)
  {
    SameView(SettleAttempts(m), m);
  }

  /**
   Opening refuses, or yields exactly the history: the same latest placement of every flow and the
   same next identity. Either way the files still denote that history.
   */
  lemma OpenKeeps(o: Options, d: Disk, l: Ledger, log: seq<PlacementRecord>) returns (l': Ledger)
    requires LedgerOk(l, log) && Represents(d, l) && LinesFit(l.lines, ReadLimit(o))
    ensures LedgerOk(l', log) && Represents(Open(o, d).disk, l')
    ensures forall s :: Open(o, d).result == Ok(s) ==> UpOk(o, s, Open(o, d).disk, l', log)
  {
    hide Torn, ParseEntry, EntriesBytes, ReplayLines, FromSnapshot, SnapshotFile, ReadSnapshotFile, EntriesOf, LoadJournal,
         SnapshotPayload, LogView, Chain, LinesFit, ViewOf, WellIndexed, OrphanCommit, SettleAttempts, Shape;
    var m := Base(l);
    if l.snapshot.Some? {
      ReadSnapshotFileBack(l.snapshot.value, o);
    }
    var opening := Open(o, d);
    l' := l;
    if d.snapshot.Some? && ReadSnapshotFile(d.snapshot.value, o).Err? {
      return;
    }
    var loaded := LoadJournal(o, m, d);
    var r := ReplayLines(m, m.maxSequence, l.lines);
    TornIsShort(l.torn, ReadLimit(o));
    LoadOfLedger(o, d, l);
    if loaded.result.Err? {
      return;
    }
    l' := if o.readOnly then l else l.(torn := []);
    NothingTorn();
    assert Denotes(l') == Denotes(l) && Continues(l') == Continues(l) && DrawnFrom(l', log);
    assert Represents(opening.disk, l') by { EmptyJournalRepresents(loaded.disk, l'); }
    if !Continues(l) {
      MismatchRefused(l);
    }
    if opening.result.Ok? {
      ReplayView(m, m.maxSequence, l.lines);
      SettleView(r.value);
      BaseDrawn(l, log);
      ReplayDrawn(m, m.maxSequence, l.lines, log);
      SettleFrame(r.value);
    }
  }

  lemma SettleFrame(m: Mem)
    ensures SettleAttempts(m).placements == m.placements && SettleAttempts(m).maxSequence == m.maxSequence
  {
  }

  lemma TornIsShort(b: seq<byte>, limit: u32)
    requires Torn(b)
    ensures ParseEntry(b, limit).Short?
  {
    if b != [] {
      hide ParseEntry, EntryBytes, EntryOf;
      var line: Line :| StrictPrefix(b, EntryBytes(EntryOf(line)));
      CutEntryNeverParses(EntryOf(line), |b|, limit);
    }
  }

  lemma NothingTorn()
    ensures Torn([])
  {
  }

  lemma NoBytes(lines: seq<Line>)
    ensures lines == [] ==> EntriesBytes(EntriesOf(lines)) == []
  {
  }

  lemma EmptyJournalRepresents(d: Disk, l: Ledger)
    requires Represents(d, l)
    ensures d.journal.None? ==> Represents(d.(journal := Some([])), l)
  {
    hide SnapshotFile;
    if d.journal.None? {
      assert EntriesBytes(EntriesOf(l.lines)) + l.torn == [];
    }
  }
}
