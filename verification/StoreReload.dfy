/** Without compaction, reopening rebuilds the memory exactly; a cut journal reopens to its whole records. */
module StoreReload {
  import opened Bytes
  import opened Records
  import opened Journal
  import opened Recovery
  import opened StoreOps
  import opened StoreViews
  import opened StoreSafety
  import opened StoreReading
  import opened StoreRuns
  import opened StoreAcceptance

  // ---- memory and its replay ------------------------------------------------------------------

  /** r is what replay makes of m: recovered placements ask for revalidation, settled attempts are unsettled. */
  predicate Mirrors(m: Mem, r: Mem) {
    && |r.placements| == |m.placements|
    && (forall i :: 0 <= i < |m.placements| ==> r.placements[i] == Durable(m.placements[i]))
    && r.latest == m.latest && r.commits == m.commits && r.nextId == m.nextId && r.maxSequence == m.maxSequence
    && r.attempts.Keys == m.attempts.Keys
    && (forall k <- m.attempts ::
          || r.attempts[k] == m.attempts[k]
          || (r.attempts[k].phase == Started && k in m.commits && m.attempts[k] == r.attempts[k].(phase := Committed)))
  }

  /** The memory a reopened store has. */
  function Reloaded(m: Mem): Mem {
    SettleAttempts(m).(placements := seq(|m.placements|, i requires 0 <= i < |m.placements| => Durable(m.placements[i])))
  }

  lemma MirrorsReload(m: Mem, r: Mem)
    requires Mirrors(m, r)
    ensures SettleAttempts(r) == Reloaded(m)
    ensures OrphanCommit(r) <==> OrphanCommit(m)
  {
    MirrorsOrphans(m, r);
    hide OrphanCommit;
    assert SettleAttempts(r).placements == Reloaded(m).placements;
    assert SettleAttempts(r).attempts == Reloaded(m).attempts;
  }

  lemma MirrorsOrphans(m: Mem, r: Mem)
    requires Mirrors(m, r)
    ensures OrphanCommit(r) <==> OrphanCommit(m)
  {
    hide SettleAttempts;
    if OrphanCommit(r) {
      var k :| k in r.attempts && r.attempts[k].phase == Committed && k !in r.commits;
      assert k in m.attempts;
    }
    if OrphanCommit(m) {
      var k :| k in m.attempts && m.attempts[k].phase == Committed && k !in m.commits;
      assert k in r.attempts;
    }
  }

  lemma SettledMirrors(r: Mem)
    requires forall p <- r.placements :: p.requiresRevalidation
    ensures Mirrors(SettleAttempts(r), r)
  {
  }

  // ---- one append -----------------------------------------------------------------------------

  /** The replay succeeds and gives the memory back. */
  predicate MirrorsReplay(m: Mem, r: Result<Mem>) {
    r.Ok? && Mirrors(m, r.value)
  }

  lemma NoteMirrors(m: Mem, r: Mem, covered: u64, a: AttemptRecord, line: Line)
    requires Mirrors(m, r) && line == Line(Increment(m.maxSequence), Tried(a)) && m.maxSequence < MAX_U64 && !Over(m, a.attempt)
    ensures MirrorsReplay(Note(m, a).(maxSequence := line.sequence), ApplyLine(r, covered, line))
  {
  }

  /** The attempt has a terminal phase. */
  predicate Over(m: Mem, attempt: u64) {
    attempt in m.attempts && m.attempts[attempt].phase != Started
  }

  lemma PlaceMirrors(m: Mem, r: Mem, covered: u64, p: PlacementRecord, line: Line)
    requires Mirrors(m, r) && line == Line(Increment(m.maxSequence), Placed(p)) && m.maxSequence < MAX_U64 && p.id == m.nextId
    requires p.intent.attempt !in m.commits
    ensures MirrorsReplay(Index(m, p).(nextId := Increment(p.id), maxSequence := line.sequence), ApplyLine(r, covered, line))
  {
  }

  // ---- the store and its files ---------------------------------------------------------------------

  /** Replaying the files succeeds and gives the memory back. */
  ghost predicate Tracked(o: Options, s: Session, d: Disk, l: Ledger) {
    && WellIndexed(s.mem)
    && Represents(d, l) && l.torn == [] && Marked(l.snapshot) && SnapshotReadable(o, l.snapshot)
    && LinesFit(l.lines, ReadLimit(o)) && MirrorsReplay(s.mem, Replayed(l))
  }

  predicate OnlyAppends(ws: seq<Write>) {
    forall w <- ws :: w.Append?
  }

  lemma AppendTracks(o: Options, s: Session, d: Disk, l: Ledger, line: Line, m: Mem, m': Mem, records: nat)
    requires Tracked(o, s, d, l) && Widest(o) <= ReadLimit(o) && WellIndexed(m') && Replayed(l) == Ok(m)
    requires AppendRaw(o, s, line.item).writes == [Append(line)]
    requires MirrorsReplay(m', ApplyLine(m, Base(l).maxSequence, line))
    ensures Tracked(o, Session(m', records, s.retired), ApplyWrites(d, [Append(line)]), LedgerWrites(l, [Append(line)]))
  {
    hide Represents, Mirrors, WellIndexed, ApplyLine, SnapshotMarked, SnapshotReadable, ApplyWrite, ReplayLines;
    var ws := [Append(line)];
    WritesRepresent(d, l, ws);
    var l' := LedgerWrites(l, ws);
    assert ws[1..] == [];
    assert l' == l.(lines := l.lines + [line]);
    ReplayLinesAppend(Base(l), Base(l).maxSequence, l.lines, [line]);
    OneLine(m, Base(l).maxSequence, line);
  }

  lemma OneLine(m: Mem, covered: u64, line: Line)
    ensures ReplayLines(m, covered, [line]) == ApplyLine(m, covered, line)
  {
    hide ApplyLine;
    var r := ApplyLine(m, covered, line);
    assert [line][1..] == [];
    assert r.Ok? ==> ReplayLines(r.value, covered, []) == r;
  }

  lemma TrackedReplays(o: Options, s: Session, d: Disk, l: Ledger) returns (m: Mem)
    requires Tracked(o, s, d, l)
    ensures Replayed(l) == Ok(m) && Mirrors(s.mem, m) && WellIndexed(s.mem)
  {
    hide Mirrors, ReplayLines, WellIndexed;
    m := Replayed(l).value;
  }

  /** What the operation leaves: the files still give the memory back. */
  ghost predicate Tracks(o: Options, e: Effect, d: Disk, l: Ledger) {
    Tracked(o, e.session, ApplyWrites(d, e.writes), LedgerWrites(l, e.writes))
  }

  lemma AttemptTracks(o: Options, s: Session, d: Disk, l: Ledger, a: AttemptRecord)
    requires Tracked(o, s, d, l) && Widest(o) <= ReadLimit(o) && !Over(s.mem, a.attempt)
    requires OnlyAppends(AppendAttempt(o, s, a).writes)
    ensures Tracks(o, AppendAttempt(o, s, a), d, l)
  {
    hide Tracked, Mirrors, WellIndexed, ApplyLine, Compact, ReplayLines, Replayed;
    var m := TrackedReplays(o, s, d, l);
    var raw := AppendRaw(o, s, Tried(a));
    if raw.code == OK {
      var m' := Note(raw.session.mem, a);
      var line := Line(s.mem.maxSequence + 1, Tried(a));
      NoteKeeps(raw.session.mem, s.mem, a);
      NoteMirrors(s.mem, m, Base(l).maxSequence, a, line);
      AppendTracks(o, s, d, l, line, m, m', raw.session.journalRecords);
      NotCompacted(o, raw.(session := raw.session.(mem := m')));
    }
  }

  lemma NotCompacted(o: Options, e: Effect)
    requires WellIndexed(e.session.mem) && OnlyAppends(MaybeCompact(o, e).writes)
    ensures MaybeCompact(o, e) == e
  {
    hide WellIndexed, MakeSnapshot;
    var c := Compact(o, e.session);
    assert !o.readOnly ==> !OnlyAppends(e.writes + c.writes) by {
      if !o.readOnly {
        var w := (e.writes + c.writes)[|e.writes|];
        assert w == c.writes[0] && w in e.writes + c.writes;
      }
    }
  }

  lemma RecordTracks(o: Options, s: Session, d: Disk, l: Ledger, p: PlacementRecord)
    requires Tracked(o, s, d, l) && Widest(o) <= ReadLimit(o)
    requires p.id == s.mem.nextId && p.intent.attempt !in s.mem.commits && OnlyAppends(CommitRecord(o, s, p).writes)
    ensures Tracks(o, CommitRecord(o, s, p), d, l)
  {
    hide Tracked, Mirrors, WellIndexed, ApplyLine, Compact, Index, ReplayLines, Replayed;
    var m := TrackedReplays(o, s, d, l);
    var raw := AppendRaw(o, s, Placed(p));
    if raw.code == OK {
      var indexed := Index(raw.session.mem, p);
      var m' := indexed.(nextId := Increment(p.id));
      Reindexed(s.mem, raw.session.mem);
      Reindexed(indexed, m');
      IndexCommutes(s.mem, p, s.mem.maxSequence + 1);
      var line := Line(s.mem.maxSequence + 1, Placed(p));
      PlaceMirrors(s.mem, m, Base(l).maxSequence, p, line);
      AppendTracks(o, s, d, l, line, m, m', raw.session.journalRecords);
      NotCompacted(o, raw.(session := raw.session.(mem := m')));
    }
  }

  lemma IndexCommutes(m: Mem, p: PlacementRecord, sequence: u64)
    ensures Index(m.(maxSequence := sequence), p) == Index(m, p).(maxSequence := sequence)
  {
  }

  /** Every operation that does not compact keeps the files a faithful copy of the memory. */
  lemma PerformTracks(o: Options, s: Session, d: Disk, l: Ledger, op: Op)
    requires Tracked(o, s, d, l) && Widest(o) <= ReadLimit(o) && OnlyAppends(Perform(o, s, op).writes)
    ensures Tracks(o, Perform(o, s, op), d, l)
  {
    hide Tracked, AppendAttempt, CommitRecord, SameIntent, NextRecord, MakeSnapshot, OnlyAppends;
    match op {
      case Start(a) =>
        if !Over(s.mem, a.attempt) && a.attempt !in s.mem.commits {
          AttemptTracks(o, s, d, l, Stamp(s, a.(phase := Started)));
        }
      case Finish(a) =>
        if a.phase != Started && !Over(s.mem, a.attempt) {
          AttemptTracks(o, s, d, l, Stamp(s, a));
        }
      case Commit(r) =>
        CommitTracks(o, s, d, l, r);
      case Fold =>
        FoldCompacts(o, s);
    }
  }

  lemma FoldCompacts(o: Options, s: Session)
    requires OnlyAppends(Compact(o, s).writes)
    ensures Compact(o, s) == Refuse(s, NOT_RUNNING)
  {
    hide WellIndexed, MakeSnapshot;
    assert !o.readOnly ==> Compact(o, s).writes[0] in Compact(o, s).writes;
  }

  lemma CommitTracks(o: Options, s: Session, d: Disk, l: Ledger, r: Request)
    requires Tracked(o, s, d, l) && Widest(o) <= ReadLimit(o) && OnlyAppends(CommitPlacement(o, s, r).writes)
    ensures Tracks(o, CommitPlacement(o, s, r), d, l)
  {
    hide Tracked, CommitRecord, SameIntent, NextRecord, WellIndexed, OnlyAppends, Replayed;
    var replayed := TrackedReplays(o, s, d, l);
    var m, i := s.mem, r.intent;
    NoZero(m);
    if !(i.attempt != 0 && i.attempt in m.commits) {
      if NextRecord(m, r).Some? && CommitPlacement(o, s, r) == CommitRecord(o, s, NextRecord(m, r).value) {
        RecordTracks(o, s, d, l, NextRecord(m, r).value);
      }
    }
  }

  // ---- whole runs -----------------------------------------------------------------------------------

  /** A session and its files after a list of operations, none of which compacts. */
  datatype Run = Run(session: Session, disk: Disk)

  predicate AppendsOnly(o: Options, s: Session, ops: seq<Op>)
    decreases |ops|
  {
    hide *;
    ops == [] || (var e := Perform(o, s, ops[0]); OnlyAppends(e.writes) && AppendsOnly(o, e.session, ops[1..]))
  }

  function RunAll(o: Options, s: Session, d: Disk, ops: seq<Op>): (r: Run)
    ensures WellIndexed(s.mem) ==> WellIndexed(r.session.mem)
    decreases |ops|
  {
    hide *;
    if ops == [] then Run(s, d)
    else var e := Perform(o, s, ops[0]); RunAll(o, e.session, ApplyWrites(d, e.writes), ops[1..])
  }

  lemma {:induction false} RunTracks(o: Options, s: Session, d: Disk, l: Ledger, ops: seq<Op>) returns (l': Ledger)
    requires Tracked(o, s, d, l) && Widest(o) <= ReadLimit(o) && AppendsOnly(o, s, ops)
    ensures var r := RunAll(o, s, d, ops); Tracked(o, r.session, r.disk, l')
    decreases |ops|
  {
    hide Tracked, Perform, OnlyAppends, WellIndexed;
    l' := l;
    if ops != [] {
      var e := Perform(o, s, ops[0]);
      PerformTracks(o, s, d, l, ops[0]);
      l' := RunTracks(o, e.session, ApplyWrites(d, e.writes), LedgerWrites(l, e.writes), ops[1..]);
    }
  }

  /** Opening these files answers this memory as replay gives it back, or finds a commit without a placement in it. */
  ghost predicate Reopens(o: Options, d: Disk, m: Mem) {
    match Open(o, d).result
    case Ok(s) => !OrphanCommit(m) && s.mem == Reloaded(m)
    case Err(_) => OrphanCommit(m)
  }

  lemma TrackedReopens(o: Options, s: Session, d: Disk, l: Ledger)
    requires Tracked(o, s, d, l)
    ensures Reopens(o, d, s.mem)
  {
    hide Represents, Mirrors, WellIndexed, SnapshotMarked, SnapshotReadable, ReplayLines, Open, OrphanCommit, Reloaded,
         SettleAttempts, ParseEntry, LinesFit;
    EmptyShort(ReadLimit(o));
    OpenExactly(o, d, l);
    MirrorsReload(s.mem, Replayed(l).value);
  }

  /** Opening for append leaves files that replay to the memory it answers, whatever it cut off. */
  lemma OpenTracks(o: Options, d: Disk, l: Ledger, s: Session) returns (l': Ledger)
    requires Represents(d, l) && Torn(l.torn) && Marked(l.snapshot) && Open(o, d).result == Ok(s) && !o.readOnly
    ensures Tracked(o, s, Open(o, d).disk, l')
  {
    hide Represents, Torn, ReplayLines, WellIndexed, OrphanCommit, SettleAttempts, SnapshotReadable, Marked, Mirrors,
         TailAcceptable, AsRead, Open, LinesFit, Base;
    OpenReadsPrefix(o, d, l);
    var a := AsRead(l, ReadLimit(o));
    l' := a.(torn := []);
    AsReadFits(l, ReadLimit(o));
    AsReadPrefix(l, ReadLimit(o));
    SameBase(a, l');
    BaseMarked(a);
    var r := Replayed(a).value;
    ReplayMarked(Base(a), Base(a).maxSequence, a.lines);
    SettledMirrors(r);
    SettleView(r);
  }

  lemma BaseMarked(l: Ledger)
    requires Marked(l.snapshot)
    ensures forall p <- Base(l).placements :: p.requiresRevalidation
  {
    hide IndexAll, NoteAll, SnapshotPayload;
    if l.snapshot.Some? {
      IndexAllPlacements(FRESH, l.snapshot.value.placements);
    }
  }

  lemma {:induction false} ReplayMarked(m: Mem, covered: u64, lines: seq<Line>)
    requires forall p <- m.placements :: p.requiresRevalidation
    ensures forall n :: ReplayLines(m, covered, lines) == Ok(n) ==> forall p <- n.placements :: p.requiresRevalidation
    decreases |lines|
  {
    if lines != [] && ApplyLine(m, covered, lines[0]).Ok? {
      ReplayMarked(ApplyLine(m, covered, lines[0]).value, covered, lines[1..]);
    }
  }

  /**
   After any run whose session began by opening sound files and then only appended, reopening answers
   exactly the memory of that session: every placement, every index, the next identity, the sequence and
   the attempts. It refuses only a commit record without a placement; it never finds a gap or a start
   after a terminal record.
   */
  lemma AppendsReload(before: seq<Event>, w: World, o: Options, s: Session, ops: seq<Op>)
    requires Runs(GENESIS, before, w) && w.intact && IdsLeft(w.log)
    requires Widest(o) <= ReadLimit(o) && !o.readOnly && Open(o, w.disk).result == Ok(s) && AppendsOnly(o, s, ops)
    ensures var r := RunAll(o, s, Open(o, w.disk).disk, ops); Reopens(o, r.disk, r.session.mem)
  {
    hide Runs, LedgerOk, UpOk, Open, Represents, Tracked, RunAll, AppendsOnly, Reopens, WellIndexed;
    GenesisSound();
    RunsSound(GENESIS, before, w);
    var l :| LedgerOk(l, w.log) && Represents(w.disk, l);
    LedgerTorn(l, w.log);
    var l1 := OpenTracks(o, w.disk, l, s);
    var l2 := RunTracks(o, s, Open(o, w.disk).disk, l1, ops);
    var r := RunAll(o, s, Open(o, w.disk).disk, ops);
    TrackedReopens(o, r.session, r.disk, l2);
  }

  // ---- cut journals ------------------------------------------------------------------------------------

  /** A journal cut at any byte loads as its longest whole-record prefix does, or is refused untouched. */
  lemma CutJournalReopens(o: Options, m: Mem, d: Disk, es: seq<Entry>, n: nat) returns (torn: seq<byte>)
    requires n <= |EntriesBytes(es)| && forall e <- es :: |e.payload| <= ReadLimit(o)
    requires d.journal == Some(EntriesBytes(es)[..n])
    ensures var k := WholeRecords(es, n);
            var whole := EntriesBytes(es[..k]);
            var cut, clean := LoadJournal(o, m, d), LoadJournal(o, m, d.(journal := Some(whole)));
            && EntriesBytes(es)[..n] == whole + torn
            && (k < |es| ==> n < |EntriesBytes(es[..k + 1])|)
            && (TailAcceptable(o, torn) ==> cut.result == clean.result)
            && (!TailAcceptable(o, torn) ==> cut.result.Err? && cut.disk == d)
            && (TailAcceptable(o, torn) && clean.result.Ok? && !o.readOnly ==> cut.disk == clean.disk)
  {
    hide Scan, EntriesBytes, WholeRecords, LoadJournal, TailAcceptable;
    var k := WholeRecords(es, n);
    var whole, bytes := EntriesBytes(es[..k]), EntriesBytes(es)[..n];
    CutParts(es, n, ReadLimit(o));
    torn := bytes[|whole|..];
    assert bytes == whole + torn;
    LoadTorn(o, m, d, whole, torn, es[..k]);
  }

  lemma LoadTorn(o: Options, m: Mem, d: Disk, whole: seq<byte>, torn: seq<byte>, es: seq<Entry>)
    requires d.journal == Some(whole + torn)
    requires Scan(whole + torn, ReadLimit(o)) == Scanned(es, torn) && Scan(whole, ReadLimit(o)) == Scanned(es, [])
    ensures var cut, clean := LoadJournal(o, m, d), LoadJournal(o, m, d.(journal := Some(whole)));
            && (TailAcceptable(o, torn) ==> cut.result == clean.result)
            && (!TailAcceptable(o, torn) ==> cut.result.Err? && cut.disk == d)
            && (TailAcceptable(o, torn) && clean.result.Ok? && !o.readOnly ==> cut.disk == clean.disk)
  {
    hide Scan, LaterRecord, Replay;
    var bytes := whole + torn;
    assert bytes[..|bytes| - |torn|] == whole;
    assert torn == [] ==> bytes == whole;
  }

  lemma CutParts(es: seq<Entry>, n: nat, limit: u32)
    requires n <= |EntriesBytes(es)| && forall e <- es :: |e.payload| <= limit
    ensures var k := WholeRecords(es, n);
            var whole, bytes := EntriesBytes(es[..k]), EntriesBytes(es)[..n];
            && (k < |es| ==> n < |EntriesBytes(es[..k + 1])|)
            && |whole| <= n && bytes[..|whole|] == whole
            && Scan(bytes, limit) == Scanned(es[..k], bytes[|whole|..])
            && Scan(whole, limit) == Scanned(es[..k], [])
  {
    hide EntryBytes, ParseEntry, Scan, EntriesBytes, WholeRecords;
    CutJournalScan(es, n, limit);
    var k := WholeRecords(es, n);
    var whole, bytes := EntriesBytes(es[..k]), EntriesBytes(es)[..n];
    ScanBack(es[..k], [], limit);
    assert whole + [] == whole && es[..k] + [] == es[..k];
    EmptyShort(limit);
    ScanShort([], limit);
    assert bytes[|whole|..] == EntriesBytes(es)[|whole|..n];
    WholePrefix(es, k);
    assert bytes[..|whole|] == EntriesBytes(es)[..|whole|];
  }

  lemma WholePrefix(es: seq<Entry>, k: nat)
    requires k <= |es|
    ensures |EntriesBytes(es[..k])| <= |EntriesBytes(es)| && EntriesBytes(es)[..|EntriesBytes(es[..k])|] == EntriesBytes(es[..k])
  {
    hide EntriesBytes;
    assert es == es[..k] + es[k..];
    EntriesBytesAppend(es[..k], es[k..]);
  }
}
