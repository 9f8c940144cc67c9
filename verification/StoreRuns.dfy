/** Every run of the store: operations, compactions, crashes at any durable step, reopenings. */
module StoreRuns {
  import opened Bytes
  import opened Records
  import opened Journal
  import opened Recovery
  import opened StoreOps
  import opened StoreViews
  import opened StoreSafety
  import opened StoreReading

  // ---- every durable step of an operation is a safe place to stop ---------------------------

  /** After each of these steps, and part-way through each append, the files hold the history so far. */
  ghost predicate SafeWrites(l: Ledger, log: seq<PlacementRecord>, ws: seq<Write>)
    decreases |ws|
  {
    && LedgerOk(l, log) && l.torn == []
    && (ws != [] ==> SafeWrites(LedgerWrite(l, ws[0]), log + Added(ws[0]), ws[1..]))
  }

  lemma {:induction false} SafeWritesAppend(l: Ledger, log: seq<PlacementRecord>, a: seq<Write>, b: seq<Write>)
    requires SafeWrites(l, log, a)
    requires SafeWrites(LedgerWrites(l, a), log + PlacedBy(a), b)
    ensures SafeWrites(l, log, a + b)
    ensures LedgerWrites(l, a + b) == LedgerWrites(LedgerWrites(l, a), b)
    decreases |a|
  {
    hide LedgerOk, LedgerWrite, Added;
    if a == [] {
      assert a + b == b && log + [] == log;
    } else {
      assert (a + b)[0] == a[0] && (a + b)[1..] == a[1..] + b;
      assert log + Added(a[0]) + PlacedBy(a[1..]) == log + PlacedBy(a);
      SafeWritesAppend(LedgerWrite(l, a[0]), log + Added(a[0]), a[1..], b);
    }
  }

  /** The first k of these steps. */
  function First(ws: seq<Write>, k: nat): seq<Write> {
    if k <= |ws| then ws[..k] else ws
  }

  /** An operation may stop after k of its steps, leaving the bytes `cut` of an append that comes next. */
  ghost predicate Interruptible(ws: seq<Write>, k: nat, cut: seq<byte>) {
    hide *;
    && k <= |ws|
    && (cut == [] || (k < |ws| && ws[k].Append? && StrictPrefix(cut, EntryBytes(EntryOf(ws[k].line)))))
  }

  /** What a crash leaves: some of the steps, and part of the next append. */
  function Interrupted(d: Disk, ws: seq<Write>, k: nat, cut: seq<byte>): Disk {
    var d1 := ApplyWrites(d, First(ws, k));
    if cut == [] then d1 else d1.(journal := Some(JournalBytes(d1) + cut))
  }

  lemma {:induction false} SafeAt(l: Ledger, log: seq<PlacementRecord>, ws: seq<Write>, k: nat)
    requires SafeWrites(l, log, ws)
    ensures LedgerOk(LedgerWrites(l, First(ws, k)), log + PlacedBy(First(ws, k)))
    decreases |ws|
  {
    hide LedgerOk, LedgerWrite, Added;
    if k == 0 || ws == [] {
      assert First(ws, k) == [] && log + [] == log;
    } else {
      SafeAt(LedgerWrite(l, ws[0]), log + Added(ws[0]), ws[1..], k - 1);
      var first, rest := First(ws, k), First(ws[1..], k - 1);
      assert first[0] == ws[0] && first[1..] == rest;
      assert log + Added(ws[0]) + PlacedBy(rest) == log + PlacedBy(first);
    }
  }

  lemma TornAppend(l: Ledger, log: seq<PlacementRecord>, line: Line, cut: seq<byte>)
    requires LedgerOk(l, log)
    requires StrictPrefix(cut, EntryBytes(EntryOf(line)))
    ensures LedgerOk(l.(torn := cut), log)
  {
    hide EntryBytes, EntryOf, Chain, SnapshotMarked, Shape, LinesFit, LogView;
    var l' := l.(torn := cut);
    assert Denotes(l') == Denotes(l) && Continues(l') == Continues(l);
  }

  /** Wherever an operation is interrupted, the files hold the history up to that point. */
  lemma CrashKeeps(d: Disk, l: Ledger, log: seq<PlacementRecord>, ws: seq<Write>, k: nat, cut: seq<byte>) returns (l': Ledger)
    requires SafeWrites(l, log, ws) && Represents(d, l) && Interruptible(ws, k, cut)
    ensures LedgerOk(l', log + PlacedBy(First(ws, k))) && Represents(Interrupted(d, ws, k, cut), l')
  {
    hide LedgerOk, EntryBytes, EntryOf, SnapshotFile, EntriesBytes, EntriesOf, ApplyWrites, LedgerWrites, First;
    SafeAt(l, log, ws, k);
    assert l.torn == [];
    WritesRepresent(d, l, First(ws, k));
    l' := LedgerWrites(l, First(ws, k));
    if cut != [] {
      TornAppend(l', log + PlacedBy(First(ws, k)), ws[k].line, cut);
      var d1 := ApplyWrites(d, First(ws, k));
      NoBytes(l'.lines);
      assert JournalBytes(d1) == EntriesBytes(EntriesOf(l'.lines));
      l' := l'.(torn := cut);
    }
  }

  // ---- one operation -----------------------------------------------------------------------

  /** The outcome of an operation: its steps are safe and its final state agrees with the files. */
  ghost predicate Settled(o: Options, d: Disk, l: Ledger, log: seq<PlacementRecord>, e: Effect) {
    && WellIndexed(e.session.mem)
    && SafeWrites(l, log, e.writes)
    && UpOk(o, e.session, ApplyWrites(d, e.writes), LedgerWrites(l, e.writes), log + PlacedBy(e.writes))
  }

  lemma NothingDone(o: Options, s: Session, d: Disk, l: Ledger, log: seq<PlacementRecord>, code: StatusCode)
    requires UpOk(o, s, d, l, log) && l.torn == []
    ensures Settled(o, d, l, log, Refuse(s, code))
  {
    hide UpOk, LedgerOk;
    assert log + PlacedBy([]) == log;
    assert LedgerOk(l, log) by { UpIsOk(o, s, d, l, log); }
    UpIsOk(o, s, d, l, log);
  }

  lemma UpIsOk(o: Options, s: Session, d: Disk, l: Ledger, log: seq<PlacementRecord>)
    requires UpOk(o, s, d, l, log)
    ensures LedgerOk(l, log) && WellIndexed(s.mem) && Represents(d, l) && ViewOf(s.mem) == LogView(log) && Chain(log)
  {
    hide Chain, Represents, ViewOf, LogView, WellIndexed;
  }

  /** A successful append, with the memory that goes with it. */
  lemma AppendSettles(o: Options, s: Session, d: Disk, l: Ledger, log: seq<PlacementRecord>, line: Line, s': Session)
    requires UpOk(o, s, d, l, log) && l.torn == [] && AppendRaw(o, s, line.item).writes == [Append(line)]
    requires !line.item.Reset? && Appendable(log, line)
    requires WellIndexed(s'.mem) && s'.mem.maxSequence == line.sequence
    requires ViewOf(s'.mem) == LogView(log + Added(Append(line)))
    requires forall p <- s'.mem.placements :: Durable(p) in log + Added(Append(line))
    ensures Settled(o, d, l, log, AppendRaw(o, s, line.item).(session := s'))
  {
    hide LedgerOk, Represents, ViewOf, LogView, WellIndexed, Follows, ApplyWrite, Continues;
    var e := AppendRaw(o, s, line.item);
    var w := Append(line);
    AppendKeeps(l, log, line);
    assert LedgerWrites(l, [w]) == LedgerWrite(l, w) && [w][1..] == [];
    assert PlacedBy([w]) == Added(w) + PlacedBy([]) == Added(w);
    WritesRepresent(d, l, [w]);
    assert SafeWrites(LedgerWrite(l, w), log + Added(w), []);
  }

  lemma AttemptKeeps(o: Options, s: Session, d: Disk, l: Ledger, log: seq<PlacementRecord>, a: AttemptRecord)
    requires UpOk(o, s, d, l, log) && l.torn == []
    ensures Settled(o, d, l, log, AppendAttempt(o, s, a))
  {
    hide UpOk, LedgerOk, Represents, ViewOf, LogView, WellIndexed, Compact, Settled;
    UpIsOk(o, s, d, l, log);
    var raw := AppendRaw(o, s, Tried(a));
    if raw.code != OK {
      NothingDone(o, s, d, l, log, raw.code);
    } else {
      var s' := raw.session.(mem := Note(raw.session.mem, a));
      NoteKeeps(raw.session.mem, s.mem, a);
      assert log + [] == log;
      UpDrawn(o, s, d, l, log);
      AppendSettles(o, s, d, l, log, Line(s.mem.maxSequence + 1, Tried(a)), s');
      MaybeCompactKeeps(o, d, l, log, raw.(session := s'));
    }
  }

  lemma UpDrawn(o: Options, s: Session, d: Disk, l: Ledger, log: seq<PlacementRecord>)
    requires UpOk(o, s, d, l, log)
    ensures forall p <- s.mem.placements :: Durable(p) in log
  {
    hide LedgerOk, Represents, ViewOf, LogView, WellIndexed, Durable;
  }

  lemma NoteKeeps(m: Mem, n: Mem, a: AttemptRecord)
    requires WellIndexed(n) && m == n.(maxSequence := m.maxSequence)
    ensures WellIndexed(Note(m, a)) && ViewOf(Note(m, a)) == ViewOf(n)
  {
    SameView(Note(m, a), n);
  }

  lemma CommitKeeps(o: Options, s: Session, d: Disk, l: Ledger, log: seq<PlacementRecord>, p: PlacementRecord)
    requires UpOk(o, s, d, l, log) && l.torn == []
    requires AppendRaw(o, s, Placed(p)).code == OK ==> Follows(log, Durable(p))
    ensures Settled(o, d, l, log, CommitRecord(o, s, p))
    ensures var e := CommitRecord(o, s, p); e.record.None? || (e.record == Some(p) && Durable(p) in log + PlacedBy(e.writes))
  {
    hide UpOk, LedgerOk, Represents, ViewOf, LogView, WellIndexed, Compact, Settled, Index, Follows;
    UpIsOk(o, s, d, l, log);
    var raw := AppendRaw(o, s, Placed(p));
    if raw.code != OK {
      NothingDone(o, s, d, l, log, raw.code);
    } else {
      var s' := raw.session.(mem := Index(raw.session.mem, p).(nextId := Increment(p.id)));
      var w := raw.writes[0];
      assert Added(w) == [Durable(p)];
      PlaceKeeps(s.mem, raw.session.mem, p, log);
      UpDrawn(o, s, d, l, log);
      DrawnGrows(s.mem, s'.mem, p, log);
      AppendSettles(o, s, d, l, log, w.line, s');
      MaybeCompactKeeps(o, d, l, log, raw.(session := s'));
      MaybeCompactAdds(o, raw.(session := s'));
      assert PlacedBy([w]) == Added(w) + PlacedBy([w][1..]);
      SettledIgnoresRecord(o, d, l, log, MaybeCompact(o, raw.(session := s')), Some(p));
    }
  }

  lemma SettledIgnoresRecord(o: Options, d: Disk, l: Ledger, log: seq<PlacementRecord>, e: Effect, r: Option<PlacementRecord>)
    requires Settled(o, d, l, log, e)
    ensures Settled(o, d, l, log, e.(record := r))
  {
    hide UpOk, SafeWrites, WellIndexed;
  }

  lemma DrawnGrows(m: Mem, m': Mem, p: PlacementRecord, log: seq<PlacementRecord>)
    requires m'.placements == Index(m, p).placements
    requires forall q <- m.placements :: Durable(q) in log
    ensures forall q <- m'.placements :: Durable(q) in log + [Durable(p)]
  {
    hide Durable;
  }

  lemma PlaceKeeps(m: Mem, raw: Mem, p: PlacementRecord, log: seq<PlacementRecord>)
    requires WellIndexed(m) && ViewOf(m) == LogView(log) && raw == m.(maxSequence := raw.maxSequence)
    requires Chain(log) && Follows(log, Durable(p))
    ensures var m' := Index(raw, p).(nextId := Increment(p.id));
            && WellIndexed(m') && ViewOf(m') == LogView(log + [Durable(p)]) && m'.maxSequence == raw.maxSequence
            && m'.placements == Index(m, p).placements
  {
    hide LogView, WellIndexed, Chain;
    var m' := Index(raw, p).(nextId := Increment(p.id));
    assert WellIndexed(raw) by { Reindexed(m, raw); }
    Reindexed(Index(raw, p), m');
    SameView(raw, m);
    SameView(m', Index(raw, p));
    ViewIndex(raw, p);
    LogGrows(log, Durable(p));
    assert p.id == LogView(log).nextId;
  }

  lemma MaybeCompactAdds(o: Options, e: Effect)
    requires WellIndexed(e.session.mem)
    ensures PlacedBy(MaybeCompact(o, e).writes) == PlacedBy(e.writes)
    ensures e.record.None? ==> MaybeCompact(o, e).record.None?
  {
    hide WellIndexed, MakeSnapshot;
    var c := Compact(o, e.session);
    PlacedByAppend(e.writes, c.writes);
    if !o.readOnly {
      CompactAdds(o, e.session);
    }
    assert PlacedBy(e.writes) + [] == PlacedBy(e.writes);
  }

  /** Compaction adds nothing to the history. */
  lemma CompactAdds(o: Options, s: Session)
    requires WellIndexed(s.mem)
    ensures PlacedBy(Compact(o, s).writes) == []
  {
    hide WellIndexed, MakeSnapshot;
    var ws := Compact(o, s).writes;
    assert forall w <- ws :: Added(w) == [];
    NoneAdded(ws);
  }

  lemma {:induction false} NoneAdded(ws: seq<Write>)
    requires forall w <- ws :: Added(w) == []
    ensures PlacedBy(ws) == []
  {
    if ws != [] {
      NoneAdded(ws[1..]);
    }
  }

  lemma MaybeCompactKeeps(o: Options, d: Disk, l: Ledger, log: seq<PlacementRecord>, e: Effect)
    requires Settled(o, d, l, log, e) && l.torn == [] && WellIndexed(e.session.mem)
    ensures Settled(o, d, l, log, MaybeCompact(o, e))
  {
    hide UpOk, LedgerOk, WellIndexed, Compact, SafeWrites;
    var r := MaybeCompact(o, e);
    if r != e {
      var c := Compact(o, e.session);
      var d1, l1, log1 := ApplyWrites(d, e.writes), LedgerWrites(l, e.writes), log + PlacedBy(e.writes);
      WritesUntorn(l, e.writes);
      CompactKeeps(o, e.session, d1, l1, log1);
      SafeWritesAppend(l, log, e.writes, c.writes);
      ApplyWritesAppend(d, e.writes, c.writes);
      PlacedByAppend(e.writes, c.writes);
      assert log + PlacedBy(r.writes) == log1 + PlacedBy(c.writes);
    }
  }

  lemma {:induction false} WritesUntorn(l: Ledger, ws: seq<Write>)
    ensures LedgerWrites(l, ws).torn == l.torn
    decreases |ws|
  {
    if ws != [] {
      WritesUntorn(LedgerWrite(l, ws[0]), ws[1..]);
    }
  }

  lemma {:induction false} ApplyWritesAppend(d: Disk, a: seq<Write>, b: seq<Write>)
    ensures ApplyWrites(d, a + b) == ApplyWrites(ApplyWrites(d, a), b)
    decreases |a|
  {
    hide ApplyWrite;
    if a == [] {
      assert a + b == b;
    } else {
      assert (a + b)[0] == a[0] && (a + b)[1..] == a[1..] + b;
      ApplyWritesAppend(ApplyWrite(d, a[0]), a[1..], b);
    }
  }

  lemma MakeMarked(o: Options, s: Session)
    requires WellIndexed(s.mem)
    ensures SnapshotMarked(MakeSnapshot(o, s))
  {
    hide WellIndexed;
  }

  /** A compaction may be interrupted after either rename or inside its marker. */
  lemma CompactKeeps(o: Options, s: Session, d: Disk, l: Ledger, log: seq<PlacementRecord>)
    requires UpOk(o, s, d, l, log) && l.torn == []
    requires WellIndexed(s.mem)
    ensures Settled(o, d, l, log, Compact(o, s))
  {
    hide UpOk, LedgerOk, WellIndexed, MakeSnapshot, ViewOf, LogView, Represents, SnapshotMarked;
    UpIsOk(o, s, d, l, log);
    if o.readOnly {
      NothingDone(o, s, d, l, log, NOT_RUNNING);
    } else {
      var e := Compact(o, s);
      var snap := MakeSnapshot(o, s);
      var l1 := l.(snapshot := Some(snap));
      var l2 := l1.(lines := []);
      MakeMarked(o, s);
      SnapshotReplacedKeeps(o, s, d, l, log);
      JournalEmptiedKeeps(o, s, l1, log);
      CompactAdds(o, s);
      assert log + [] == log;
      WritesRepresent(d, l, e.writes);
      UpDrawn(o, s, d, l, log);
      RebasedKeeps(s);
      if |e.writes| == 2 {
        TwoSafe(l, l1, l2, log, snap);
        UpAgain(o, e.session, ApplyWrites(d, e.writes), l2, log);
      } else {
        var line := Line(1, Reset(s.mem.maxSequence));
        MarkerKeeps(o, s, l2, log, line);
        assert l2.lines + [line] == [line];
        ThreeSafe(l, l1, l2, log, snap, line);
        UpAgain(o, e.session, ApplyWrites(d, e.writes), l2.(lines := [line]), log);
      }
    }
  }

  lemma TwoSafe(l: Ledger, l1: Ledger, l2: Ledger, log: seq<PlacementRecord>, snap: Snapshot)
    requires l1 == l.(snapshot := Some(snap)) && l2 == l1.(lines := []) && l.torn == []
    requires LedgerOk(l, log) && LedgerOk(l1, log) && LedgerOk(l2, log)
    ensures SafeWrites(l, log, [ReplaceSnapshot(snap), EmptyJournal]) && LedgerWrites(l, [ReplaceSnapshot(snap), EmptyJournal]) == l2
  {
    hide LedgerOk;
    var ws := [ReplaceSnapshot(snap), EmptyJournal];
    assert log + [] == log && ws[1..] == [EmptyJournal] && ws[1..][1..] == [];
    assert SafeWrites(l2, log, []);
    assert SafeWrites(l1, log, ws[1..]);
    assert LedgerWrites(l1, ws[1..]) == l2;
  }

  lemma ThreeSafe(l: Ledger, l1: Ledger, l2: Ledger, log: seq<PlacementRecord>, snap: Snapshot, line: Line)
    requires l1 == l.(snapshot := Some(snap)) && l2 == l1.(lines := []) && l.torn == [] && line.item.Reset?
    requires LedgerOk(l, log) && LedgerOk(l1, log) && LedgerOk(l2, log) && LedgerOk(l2.(lines := [line]), log)
    ensures SafeWrites(l, log, [ReplaceSnapshot(snap), EmptyJournal] + [Append(line)])
    ensures LedgerWrites(l, [ReplaceSnapshot(snap), EmptyJournal] + [Append(line)]) == l2.(lines := [line])
  {
    hide LedgerOk;
    TwoSafe(l, l1, l2, log, snap);
    var two, last := [ReplaceSnapshot(snap), EmptyJournal], [Append(line)];
    assert [] + [line] == [line] && log + [] == log && last[1..] == [];
    assert SafeWrites(l2.(lines := [line]), log, []);
    assert SafeWrites(l2, log, last) && LedgerWrites(l2, last) == l2.(lines := [line]);
    assert PlacedBy(two) == [] by { NoneAdded(two); }
    SafeWritesAppend(l, log, two, last);
  }

  lemma UpAgain(o: Options, s: Session, d: Disk, l: Ledger, log: seq<PlacementRecord>)
    requires WellIndexed(s.mem) && LedgerOk(l, log) && Represents(d, l) && l.torn == []
    requires Continues(l) && ViewOf(s.mem) == LogView(log)
    requires s.mem.maxSequence == EndSequence(l.lines, Base(l).maxSequence)
             || (l.lines == [] && s.mem.maxSequence == 0 && CannotAppend(o))
    requires forall p <- s.mem.placements :: Durable(p) in log
    ensures UpOk(o, s, d, l, log)
  {
    hide LedgerOk, Represents, ViewOf, LogView, WellIndexed, Continues, EndSequence;
  }

  lemma RebasedKeeps(s: Session)
    requires WellIndexed(s.mem)
    ensures WellIndexed(s.mem.(maxSequence := 0)) && ViewOf(s.mem.(maxSequence := 0)) == ViewOf(s.mem)
    ensures WellIndexed(s.mem.(maxSequence := 1)) && ViewOf(s.mem.(maxSequence := 1)) == ViewOf(s.mem)
  {
    SameView(s.mem.(maxSequence := 0), s.mem);
    SameView(s.mem.(maxSequence := 1), s.mem);
  }

  /** What a commit writes continues the history. */
  lemma FollowsNext(m: Mem, log: seq<PlacementRecord>, r: Request, p: PlacementRecord)
    requires WellIndexed(m) && ViewOf(m) == LogView(log) && m.nextId < MAX_U64 && NextRecord(m, r) == Some(p)
    ensures Follows(log, Durable(p))
  {
    hide LogView;
    var f := r.intent.flow;
    assert f in LogView(log).latest <==> f in m.latest;
    if f in m.latest {
      assert LogView(log).latest[f] == LatestOf(m, f);
    }
  }

  /** What the operation answers, if it answers a record, is in this history. */
  predicate AnswersFrom(e: Effect, log: seq<PlacementRecord>) {
    e.record.Some? ==> Durable(e.record.value) in log
  }

  lemma PlacementKeeps(o: Options, s: Session, d: Disk, l: Ledger, log: seq<PlacementRecord>, r: Request)
    requires UpOk(o, s, d, l, log) && l.torn == []
    requires WellIndexed(s.mem) && s.mem.nextId < MAX_U64
    ensures Settled(o, d, l, log, CommitPlacement(o, s, r))
    ensures var e := CommitPlacement(o, s, r); AnswersFrom(e, log + PlacedBy(e.writes))
  {
    hide UpOk, LedgerOk, Represents, ViewOf, LogView, WellIndexed, Settled, Follows, NextRecord, CommitRecord, SameIntent,
         Durable;
    UpIsOk(o, s, d, l, log);
    UpDrawn(o, s, d, l, log);
    var e, m, i := CommitPlacement(o, s, r), s.mem, r.intent;
    NothingDone(o, s, d, l, log, e.code);
    assert log + PlacedBy([]) == log;
    if i.flow == 0 || i.path == 0 || i.pathAuthority == 0 || !r.digestMatches {
    } else if i.attempt != 0 && i.attempt in m.commits {
      assert m.commits[i.attempt] < |m.placements| by { InRange(m, i.attempt); }
      var existing := m.placements[m.commits[i.attempt]];
      assert Durable(existing) in log;
      NothingDone(o, s, d, l, log, OK);
      SettledIgnoresRecord(o, d, l, log, Refuse(s, OK), Some(existing));
    } else if m.maxSequence >= o.maxTotalRecords {
    } else {
      match NextRecord(m, r) {
        case None =>
        case Some(p) =>
          FollowsNext(m, log, r, p);
          CommitKeeps(o, s, d, l, log, p);
      }
    }
  }

  lemma InRange(m: Mem, a: u64)
    requires WellIndexed(m) && a in m.commits
    ensures m.commits[a] < |m.placements|
  {
  }

  /** Every operation keeps the store and its files in step with the history, at every durable step. */
  lemma PerformKeeps(o: Options, s: Session, d: Disk, l: Ledger, log: seq<PlacementRecord>, op: Op)
    requires UpOk(o, s, d, l, log) && l.torn == []
    requires WellIndexed(s.mem) && s.mem.nextId < MAX_U64
    ensures Settled(o, d, l, log, Perform(o, s, op))
    ensures var e := Perform(o, s, op); AnswersFrom(e, log + PlacedBy(e.writes))
  {
    hide UpOk, WellIndexed, Settled, Durable, Compact, CommitPlacement, AppendAttempt;
    var e := Perform(o, s, op);
    NothingDone(o, s, d, l, log, e.code);
    match op {
      case Start(a) =>
        if e != Refuse(s, e.code) {
          AttemptKeeps(o, s, d, l, log, Stamp(s, a.(phase := Started)));
        }
        NoRecord(o, s, op);
      case Finish(a) =>
        if e != Refuse(s, e.code) {
          AttemptKeeps(o, s, d, l, log, Stamp(s, a));
        }
        NoRecord(o, s, op);
      case Commit(r) => PlacementKeeps(o, s, d, l, log, r);
      case Fold =>
        CompactKeeps(o, s, d, l, log);
        NoRecord(o, s, op);
    }
  }

  lemma NoRecord(o: Options, s: Session, op: Op)
    requires WellIndexed(s.mem) && !op.Commit?
    ensures Perform(o, s, op).record.None?
  {
    hide WellIndexed, MakeSnapshot;
  }

  // ---- runs --------------------------------------------------------------------------------

  /** An open store and the options it was opened with. */
  datatype Handle = Handle(options: Options, session: Session)

  /**
   The store's process and its files. `log` is the history: every placement whose append completed,
   in order. `intact` tells that no opening has cut a whole record off the journal.
   */
  datatype World = World(up: Option<Handle>, disk: Disk, log: seq<PlacementRecord>, intact: bool)

  const GENESIS := World(None, Disk(None, None), [], true)

  /**
   Do runs an operation to its end. Crash stops the process after `steps` of the operation's durable
   steps, leaving the bytes `cut` of the next one; with all the steps done the answer is lost. Stop is
   a clean exit, Reopen an attempt to open what the files hold, with any options.
   */
  datatype Event = Do(op: Op) | Crash(op: Op, steps: nat, cut: seq<byte>) | Stop | Reopen(options: Options)

  ghost predicate Possible(w: World, e: Event) {
    hide *;
    match e
    case Do(op) => w.up.Some?
    case Crash(op, steps, cut) => w.up.Some? && Interruptible(WritesOf(w.up.value, op), steps, cut)
    case Stop => w.up.Some?
    case Reopen(o) => w.up.None?
  }

  /** The durable steps of an operation of the open store. */
  function WritesOf(h: Handle, op: Op): seq<Write> {
    Perform(h.options, h.session, op).writes
  }

  /** The world after an event; one that is not possible changes nothing. */
  ghost function Step(w: World, e: Event): World {
    match w.up
    case None =>
      if !e.Reopen? then w
      else
        var opening := Open(e.options, w.disk);
        World(if opening.result.Ok? then Some(Handle(e.options, opening.result.value)) else None,
              opening.disk, w.log, w.intact && WholeEntries(opening.disk) == WholeEntries(w.disk))
    case Some(h) =>
      match e
      case Do(op) =>
        w.(up := Some(h.(session := Perform(h.options, h.session, op).session)),
           disk := ApplyWrites(w.disk, WritesOf(h, op)), log := w.log + PlacedBy(WritesOf(h, op)))
      case Crash(op, steps, cut) =>
        w.(up := None, disk := Interrupted(w.disk, WritesOf(h, op), steps, cut),
           log := w.log + PlacedBy(First(WritesOf(h, op), steps)))
      case Stop => w.(up := None)
      case Reopen(o) => w
  }

  /** The events happen one after another, from w to w'. */
  ghost predicate Runs(w: World, es: seq<Event>, w': World)
    decreases |es|
  {
    hide *;
    if es == [] then w' == w else Possible(w, es[0]) && Runs(Step(w, es[0]), es[1..], w')
  }

  lemma {:induction false} RunsOn(w0: World, es: seq<Event>, w: World, fs: seq<Event>, w': World)
    requires Runs(w0, es, w) && Runs(w, fs, w')
    ensures Runs(w0, es + fs, w')
    decreases |es|
  {
    hide Possible, Step;
    if es == [] {
      assert es + fs == fs;
    } else {
      assert (es + fs)[0] == es[0] && (es + fs)[1..] == es[1..] + fs;
      RunsOn(Step(w0, es[0]), es[1..], w, fs, w');
    }
  }

  lemma RunsSnoc(w0: World, es: seq<Event>, w: World, e: Event)
    requires Runs(w0, es, w) && Possible(w, e)
    ensures Runs(w0, es + [e], Step(w, e))
  {
    hide Possible, Step;
    assert [e][1..] == [];
    assert Runs(Step(w, e), [], Step(w, e));
    RunsOn(w0, es, w, [e], Step(w, e));
  }

  /** A store open only for reading, which did not read all the files hold. */
  predicate Partial(h: Handle, d: Disk) {
    h.options.readOnly && !ReadsAll(h.options, d)
  }

  /** The files hold the history, and an open store that has read them shows it. */
  ghost predicate Sound(w: World) {
    && (exists l :: LedgerOk(l, w.log) && Represents(w.disk, l))
    && (w.up.Some? ==> HandleOk(w.up.value, w.disk, w.log))
  }

  ghost predicate HandleOk(h: Handle, d: Disk, log: seq<PlacementRecord>) {
    && WellIndexed(h.session.mem)
    && (forall p <- h.session.mem.placements :: Durable(p) in log)
    && (!Partial(h, d) ==> exists l :: UpOk(h.options, h.session, d, l, log))
  }

  lemma GenesisSound()
    ensures Sound(GENESIS)
  {
    var l := Ledger(None, [], []);
    FreshView();
    assert Applied(l.lines, Base(l).maxSequence) == [];
    assert LedgerOk(l, []) && Represents(GENESIS.disk, l);
  }

  /** What the operation answers, if it answers a record, is held in memory. */
  predicate Recalls(e: Effect, m: Mem) {
    e.record.Some? ==> e.record.value in m.placements
  }

  /** A read-only store writes nothing. */
  lemma ReadOnlyWritesNothing(o: Options, s: Session, op: Op)
    requires o.readOnly
    ensures var e := Perform(o, s, op); e.writes == [] && e.session == s && Recalls(e, s.mem)
  {
    hide SameIntent, NewRecord, MakeSnapshot;
  }

  /** Fewer placements were made than there are identities. */
  predicate IdsLeft(log: seq<PlacementRecord>) {
    |log| < MAX_U64 - 1
  }

  lemma UpNext(o: Options, s: Session, d: Disk, l: Ledger, log: seq<PlacementRecord>)
    requires UpOk(o, s, d, l, log) && IdsLeft(log)
    ensures WellIndexed(s.mem) && s.mem.nextId < MAX_U64
  {
    hide UpOk, LedgerOk, Represents, LogView, WellIndexed, Chain;
    UpIsOk(o, s, d, l, log);
    LogNext(log);
    ViewNext(s.mem);
  }

  lemma UpHandle(o: Options, s: Session, d: Disk, l: Ledger, log: seq<PlacementRecord>)
    requires UpOk(o, s, d, l, log)
    ensures HandleOk(Handle(o, s), d, log)
  {
    hide UpOk, Durable, ReadsAll;
    UpIsOk(o, s, d, l, log);
    UpDrawn(o, s, d, l, log);
  }

  /** A store open for append shows the history and can commit again. */
  lemma Writable(w: World, o: Options, s: Session) returns (l: Ledger)
    requires Sound(w) && IdsLeft(w.log) && w.up == Some(Handle(o, s)) && !o.readOnly
    ensures UpOk(o, s, w.disk, l, w.log) && l.torn == [] && WellIndexed(s.mem) && s.mem.nextId < MAX_U64
  {
    hide UpOk, LedgerOk, Represents, WellIndexed, ReadsAll;
    l :| UpOk(o, s, w.disk, l, w.log);
    Untorn(o, s, w.disk, l, w.log);
    UpNext(o, s, w.disk, l, w.log);
  }

  lemma DoSound(w: World, op: Op)
    requires Sound(w) && IdsLeft(w.log)
    ensures Sound(Step(w, Do(op)))
  {
    hide UpOk, LedgerOk, Represents, WellIndexed, Perform, SafeWrites, ApplyWrites, LedgerWrites, HandleOk;
    if w.up.Some? {
      var o, s := w.up.value.options, w.up.value.session;
      var e := Perform(o, s, op);
      if o.readOnly {
        ReadOnlyWritesNothing(o, s, op);
        NoWrites(w.disk, w.log);
      } else {
        var l := Writable(w, o, s);
        PerformKeeps(o, s, w.disk, l, w.log, op);
        var l' := LedgerWrites(l, e.writes);
        UpIsOk(o, e.session, ApplyWrites(w.disk, e.writes), l', w.log + PlacedBy(e.writes));
        UpHandle(o, e.session, ApplyWrites(w.disk, e.writes), l', w.log + PlacedBy(e.writes));
      }
    }
  }

  lemma NoWrites(d: Disk, log: seq<PlacementRecord>)
    ensures ApplyWrites(d, []) == d && log + PlacedBy([]) == log
  {
  }

  lemma Untorn(o: Options, s: Session, d: Disk, l: Ledger, log: seq<PlacementRecord>)
    requires UpOk(o, s, d, l, log) && !o.readOnly
    ensures l.torn == []
  {
    hide LedgerOk, Represents, WellIndexed, ViewOf, LogView;
  }

  lemma CrashSound(w: World, op: Op, steps: nat, cut: seq<byte>)
    requires Sound(w) && IdsLeft(w.log) && Possible(w, Crash(op, steps, cut))
    ensures Sound(Step(w, Crash(op, steps, cut)))
  {
    hide UpOk, LedgerOk, Represents, WellIndexed, Perform, SafeWrites, ApplyWrites, LedgerWrites, Interrupted, Interruptible,
         HandleOk, First;
    var o, s := w.up.value.options, w.up.value.session;
    var ws := Perform(o, s, op).writes;
    if o.readOnly {
      ReadOnlyWritesNothing(o, s, op);
      NothingInterrupted(w.disk, steps, cut);
      NoWrites(w.disk, w.log);
    } else {
      var l := Writable(w, o, s);
      PerformKeeps(o, s, w.disk, l, w.log, op);
      UpIsOk(o, s, w.disk, l, w.log);
      var l' := CrashKeeps(w.disk, l, w.log, ws, steps, cut);
    }
  }

  lemma NothingInterrupted(d: Disk, k: nat, cut: seq<byte>)
    requires Interruptible([], k, cut)
    ensures Interrupted(d, [], k, cut) == d && First([], k) == []
  {
    hide EntryBytes, EntryOf;
  }

  lemma ReopenSound(w: World, o: Options)
    requires Sound(w) && Step(w, Reopen(o)).intact
    ensures Sound(Step(w, Reopen(o)))
  {
    hide UpOk, LedgerOk, Represents, Open, WholeEntries, ReadsAll, HandleOk;
    if w.up.None? {
      var l :| LedgerOk(l, w.log) && Represents(w.disk, l);
      var opening := Open(o, w.disk);
      LedgerTorn(l, w.log);
      ReadsAllExactly(o, w.disk, l);
      if ReadsAll(o, w.disk) {
        var l' := OpenKeeps(o, w.disk, l, w.log);
        if opening.result.Ok? { UpHandle(o, opening.result.value, opening.disk, l', w.log); }
      } else {
        OpenCutsNothing(o, w.disk, l, w.log);
      }
    }
  }

  lemma LedgerTorn(l: Ledger, log: seq<PlacementRecord>)
    requires LedgerOk(l, log)
    ensures Torn(l.torn) && Marked(l.snapshot) && DrawnFrom(l, log)
  {
    hide Torn, SnapshotMarked, DrawnFrom, Chain;
  }

  /** An opening that did not read everything, and still cut no whole record off, left the files alone. */
  lemma OpenCutsNothing(o: Options, d: Disk, l: Ledger, log: seq<PlacementRecord>)
    requires LedgerOk(l, log) && Represents(d, l) && !ReadsAll(o, d) && WholeEntries(Open(o, d).disk) == WholeEntries(d)
    ensures Open(o, d).disk == d && forall s :: Open(o, d).result == Ok(s) ==> HandleOk(Handle(o, s), d, log)
  {
    hide LedgerOk, Represents, Open, WholeEntries, ReadsAll, LinesFit, Torn, AsRead, OrphanCommit, Marked,
         TailAcceptable, SnapshotReadable, Replayed, SettleAttempts, EntriesOf, Durable, WellIndexed;
    var opening := Open(o, d);
    LedgerTorn(l, log);
    OpenReadsPrefix(o, d, l);
    WholeIsLines(d, l);
    ReadsAllExactly(o, d, l);
    var a := AsRead(l, ReadLimit(o));
    NothingTorn();
    AsReadWhole(l, ReadLimit(o));
    if Represents(opening.disk, a.(torn := [])) {
      WholeIsLines(opening.disk, a.(torn := []));
    }
    if opening.result.Ok? {
      AsReadPrefix(l, ReadLimit(o));
      ReplayedDrawn(l, a, log);
      SettleFrame(Replayed(a).value);
      SettleView(Replayed(a).value);
    }
  }

  lemma ReplayedDrawn(l: Ledger, a: Ledger, log: seq<PlacementRecord>)
    requires LedgerOk(l, log) && a.lines <= l.lines && a.snapshot == l.snapshot
    ensures forall m :: Replayed(a) == Ok(m) ==> WellIndexed(m) && forall p <- m.placements :: Durable(p) in log
  {
    hide Base, ReplayLines, Durable, Torn, SnapshotMarked, Chain, Shape, Continues, WellIndexed;
    BaseDrawn(l, log);
    SameBase(l, a);
    if Replayed(a).Ok? {
      assert forall line <- a.lines :: line in l.lines;
      ReplayDrawn(Base(a), Base(a).maxSequence, a.lines, log);
    }
  }

  /**
   Over every run of operations, compactions, crashes at any durable step or part-way through an
   append, and reopenings with any options, the files hold exactly the history, as long as no
   opening has cut a whole record off and identities are left.
   */
  lemma {:induction false} RunsSound(w: World, es: seq<Event>, w': World)
    requires Sound(w) && Runs(w, es, w')
    ensures w'.intact && IdsLeft(w'.log) ==> Sound(w')
    ensures w.log <= w'.log
    ensures w'.intact ==> w.intact
    decreases |es|
  {
    hide Sound, Possible, Step;
    if es != [] {
      var w1 := Step(w, es[0]);
      StepGrows(w, es[0]);
      RunGrows(w1, es[1..], w');
      if w'.intact && IdsLeft(w'.log) {
        match es[0] {
          case Do(op) => DoSound(w, op);
          case Crash(op, steps, cut) => CrashSound(w, op, steps, cut);
          case Stop => StopSound(w);
          case Reopen(o) => ReopenSound(w, o);
        }
        RunsSound(w1, es[1..], w');
      }
    }
  }

  lemma {:induction false} RunGrows(w: World, es: seq<Event>, w': World)
    requires Runs(w, es, w')
    ensures w.log <= w'.log
    ensures w'.intact ==> w.intact
    decreases |es|
  {
    hide Possible, Step;
    if es != [] {
      var w1 := Step(w, es[0]);
      StepGrows(w, es[0]);
      RunGrows(w1, es[1..], w');
    }
  }

  lemma StopSound(w: World)
    requires Sound(w)
    ensures Sound(Step(w, Stop))
  {
    hide UpOk, LedgerOk, Represents;
  }

  lemma StepGrows(w: World, e: Event)
    ensures w.log <= Step(w, e).log
    ensures Step(w, e).intact ==> w.intact
  {
    hide Perform, ApplyWrites, Interrupted, Open;
  }
}
