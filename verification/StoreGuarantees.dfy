/** What callers of the store may rely on, stated about the plain history of durable placements. */
module StoreGuarantees {
  import opened Bytes
  import opened Records
  import opened Journal
  import opened Recovery
  import opened StoreOps
  import opened StoreViews
  import opened StoreSafety
  import opened StoreReading
  import opened StoreRuns

  // ---- the history in closed form -----------------------------------------------------------

  function CountOf(log: seq<PlacementRecord>, flow: u64): nat
    decreases |log|
  {
    if log == [] then 0
    else CountOf(log[..|log| - 1], flow) + if log[|log| - 1].intent.flow == flow then 1 else 0
  }

  function LastOf(log: seq<PlacementRecord>, flow: u64): Option<PlacementRecord>
    decreases |log|
  {
    if log == [] then None
    else if log[|log| - 1].intent.flow == flow then Some(log[|log| - 1])
    else LastOf(log[..|log| - 1], flow)
  }

  /** Identities count from one; a flow's generations count from one and name their predecessors. */
  predicate Numbered(log: seq<PlacementRecord>) {
    forall i :: 0 <= i < |log| ==>
      && log[i].id == i + 1
      && log[i].generation == CountOf(log[..i], log[i].intent.flow) + 1
      && log[i].supersedesGeneration == log[i].generation - 1
  }

  /** m shows the history: the last placement of every flow, and the identity after the last. */
  predicate Shows(m: Mem, log: seq<PlacementRecord>) {
    && WellIndexed(m)
    && m.nextId == |log| + 1
    && (forall f: u64 :: f in m.latest <==> LastOf(log, f).Some?)
    && (forall f <- m.latest :: LastOf(log, f) == Some(Durable(m.placements[m.latest[f]])))
  }

  /** The view of a history: next identity, and for every flow its last placement and generation. */
  predicate Tracks(v: View, log: seq<PlacementRecord>) {
    && v.nextId == |log| + 1
    && (forall f: u64 :: f in v.latest <==> LastOf(log, f).Some?)
    && (forall f <- v.latest :: LastOf(log, f) == Some(v.latest[f]) && v.latest[f].generation == CountOf(log, f))
    && (forall f: u64 :: LastOf(log, f).None? ==> CountOf(log, f) == 0)
  }

  lemma TracksGrows(v: View, log: seq<PlacementRecord>, p: PlacementRecord)
    requires Tracks(v, log) && p.requiresRevalidation && p.id == v.nextId < MAX_U64
    requires p.generation == CountOf(log, p.intent.flow) + 1
    ensures Tracks(Advance(v, p), log + [p])
  {
    var more := log + [p];
    assert more[..|log|] == log;
    assert Durable(p) == p;
    assert forall f: u64 :: LastOf(more, f) == if f == p.intent.flow then Some(p) else LastOf(log, f);
    assert forall f: u64 :: CountOf(more, f) == CountOf(log, f) + if f == p.intent.flow then 1 else 0;
  }

  lemma {:induction false} ChainIsNumbered(log: seq<PlacementRecord>)
    requires Chain(log)
    ensures Numbered(log) && Tracks(LogView(log), log)
    decreases |log|
  {
    if log != [] {
      var init, p := log[..|log| - 1], log[|log| - 1];
      ChainIsNumbered(init);
      ChainStep(init, p);
      assert log == init + [p];
    }
  }

  lemma ChainStep(log: seq<PlacementRecord>, p: PlacementRecord)
    requires Chain(log) && Follows(log, p) && Numbered(log) && Tracks(LogView(log), log)
    ensures Numbered(log + [p]) && Tracks(LogView(log + [p]), log + [p])
  {
    hide LogView, Numbered, Chain, Advance;
    LogGrows(log, p);
    TracksGrows(LogView(log), log, p);
    NumberedGrows(log, p);
  }

  lemma NumberedGrows(log: seq<PlacementRecord>, p: PlacementRecord)
    requires Numbered(log) && p.id == |log| + 1
    requires p.generation == CountOf(log, p.intent.flow) + 1 && p.supersedesGeneration == p.generation - 1
    ensures Numbered(log + [p])
  {
    var more := log + [p];
    forall i | 0 <= i < |more|
      ensures more[i].id == i + 1 && more[i].generation == CountOf(more[..i], more[i].intent.flow) + 1
      ensures more[i].supersedesGeneration == more[i].generation - 1
    {
      assert more[..i] == if i < |log| then log[..i] else log;
    }
  }

  lemma ViewShows(m: Mem, log: seq<PlacementRecord>)
    requires WellIndexed(m) && Chain(log) && ViewOf(m) == LogView(log)
    ensures Shows(m, log)
  {
    hide Chain, LogView;
    ChainIsNumbered(log);
    forall f | f in m.latest ensures LastOf(log, f) == Some(Durable(m.placements[m.latest[f]])) {
      assert LogView(log).latest[f] == LatestOf(m, f);
    }
    assert forall f :: f in m.latest <==> f in LogView(log).latest;
  }

  // ---- nothing is lost and nothing rolls back ---------------------------------------------------

  /** Opening these files with these options refuses, or shows this history if it reads every whole record. */
  ghost predicate OpensTo(o: Options, d: Disk, log: seq<PlacementRecord>) {
    ReadsAll(o, d) && Open(o, d).result.Ok? ==> Shows(Open(o, d).result.value.mem, log)
  }

  /** The open store shows this history, unless it is a reader that did not read every whole record. */
  predicate IsAt(h: Handle, d: Disk, log: seq<PlacementRecord>) {
    Partial(h, d) || Shows(h.session.mem, log)
  }

  /**
   Whatever operations, compactions, crashes and reopenings happened, the history is numbered without
   gaps, and opening the files now, with options that read every whole record they hold, either refuses or
   shows exactly that history. So does an open store.
   */
  lemma NothingLost(es: seq<Event>, w: World, o: Options)
    requires Runs(GENESIS, es, w) && w.intact && IdsLeft(w.log)
    ensures Numbered(w.log) && OpensTo(o, w.disk, w.log)
    ensures forall h :: w.up == Some(h) ==> IsAt(h, w.disk, w.log)
  {
    hide Runs, LedgerOk, UpOk, Open, Represents, Shows, Numbered, LogView, Chain, ViewOf, ReadsAll, Partial, WellIndexed;
    GenesisSound();
    RunsSound(GENESIS, es, w);
    var l :| LedgerOk(l, w.log) && Represents(w.disk, l);
    LedgerChain(l, w.log);
    ChainIsNumbered(w.log);
    var opening := Open(o, w.disk);
    if ReadsAll(o, w.disk) && opening.result.Ok? {
      LedgerTorn(l, w.log);
      ReadsAllExactly(o, w.disk, l);
      var l' := OpenKeeps(o, w.disk, l, w.log);
      UpIsOk(o, opening.result.value, opening.disk, l', w.log);
      ViewShows(opening.result.value.mem, w.log);
    }
    if w.up.Some? && !Partial(w.up.value, w.disk) {
      var h := w.up.value;
      var u :| UpOk(h.options, h.session, w.disk, u, w.log);
      UpIsOk(h.options, h.session, w.disk, u, w.log);
      ViewShows(h.session.mem, w.log);
    }
  }

  lemma LedgerChain(l: Ledger, log: seq<PlacementRecord>)
    requires LedgerOk(l, log)
    ensures Chain(log)
  {
    hide Chain, Torn, Denotes;
  }

  /** A placement the store has acknowledged is in the history from then on, whatever happens next. */
  lemma AcknowledgedStays(before: seq<Event>, w: World, h: Handle, op: Op, p: PlacementRecord, after: seq<Event>, w': World)
    requires Runs(GENESIS, before, w) && w.intact && IdsLeft(w.log)
    requires w.up == Some(h) && Perform(h.options, h.session, op).record == Some(p)
    requires Runs(Step(w, Do(op)), after, w')
    ensures Durable(p) in w'.log
  {
    hide Runs, UpOk, LedgerOk, Represents, Perform, Durable, WellIndexed, Settled, ApplyWrites, Partial;
    GenesisSound();
    RunsSound(GENESIS, before, w);
    var o, s := h.options, h.session;
    if o.readOnly {
      ReadOnlyWritesNothing(o, s, op);
      NoWrites(w.disk, w.log);
    } else {
      var l := Writable(w, o, s);
      PerformKeeps(o, s, w.disk, l, w.log, op);
    }
    assert Durable(p) in Step(w, Do(op)).log;
    RunGrows(Step(w, Do(op)), after, w');
  }

  // ---- one placement per attempt ---------------------------------------------------------------

  /** The session after a list of operations, and the placements they wrote. */
  datatype Outcome = Outcome(session: Session, placed: seq<PlacementRecord>)

  function PerformAll(o: Options, s: Session, ops: seq<Op>): (r: Outcome)
    ensures WellIndexed(s.mem) ==> WellIndexed(r.session.mem)
    decreases |ops|
  {
    hide *;
    if ops == [] then Outcome(s, [])
    else
      var e := Perform(o, s, ops[0]);
      var rest := PerformAll(o, e.session, ops[1..]);
      Outcome(rest.session, PlacedBy(e.writes) + rest.placed)
  }

  /** Nothing an attempt has committed is forgotten or replaced while the store stays open. */
  predicate Remembers(m: Mem, m': Mem) {
    && |m.placements| <= |m'.placements| && m'.placements[..|m.placements|] == m.placements
    && (forall a <- m.commits :: a in m'.commits && m'.commits[a] == m.commits[a])
  }

  /** No two of these placements, and none of these and an attempt of `taken`, share a non-zero attempt. */
  predicate OwnAttempts(ps: seq<PlacementRecord>, taken: set<u64>) {
    && (forall p <- ps :: p.intent.attempt != 0 ==> p.intent.attempt !in taken)
    && (forall i, j :: 0 <= i < j < |ps| && ps[i].intent.attempt != 0 ==> ps[i].intent.attempt != ps[j].intent.attempt)
  }

  lemma PerformRemembers(o: Options, s: Session, op: Op)
    requires WellIndexed(s.mem)
    ensures var e := Perform(o, s, op);
            && Remembers(s.mem, e.session.mem)
            && OwnAttempts(PlacedBy(e.writes), s.mem.commits.Keys)
            && (forall p <- PlacedBy(e.writes) :: p.intent.attempt != 0 ==> p.intent.attempt in e.session.mem.commits)
  {
    hide WellIndexed, MakeSnapshot, SameIntent, Compact;
    match op {
      case Start(a) => AttemptRemembers(o, s, Stamp(s, a.(phase := Started)));
      case Finish(a) => AttemptRemembers(o, s, Stamp(s, a));
      case Commit(r) => CommitRemembers(o, s, r);
      case Fold => CompactRemembers(o, s);
    }
  }

  lemma CompactRemembers(o: Options, s: Session)
    requires WellIndexed(s.mem)
    ensures var m, m' := s.mem, Compact(o, s).session.mem;
            m' == m.(maxSequence := m'.maxSequence) && PlacedBy(Compact(o, s).writes) == []
  {
    hide WellIndexed, MakeSnapshot;
    CompactAdds(o, s);
  }

  lemma AttemptRemembers(o: Options, s: Session, a: AttemptRecord)
    requires WellIndexed(s.mem)
    ensures var e := AppendAttempt(o, s, a); Remembers(s.mem, e.session.mem) && PlacedBy(e.writes) == []
  {
    hide WellIndexed, Compact;
    var raw := AppendRaw(o, s, Tried(a));
    if raw.code == OK {
      var e := raw.(session := raw.session.(mem := Note(raw.session.mem, a)));
      NoteKeeps(raw.session.mem, s.mem, a);
      CompactRemembers(o, e.session);
      MaybeCompactAdds(o, e);
      assert PlacedBy(e.writes) == Added(e.writes[0]) + PlacedBy(e.writes[1..]);
    }
  }

  lemma CommitRemembers(o: Options, s: Session, r: Request)
    requires WellIndexed(s.mem)
    ensures var e := CommitPlacement(o, s, r);
            && Remembers(s.mem, e.session.mem)
            && OwnAttempts(PlacedBy(e.writes), s.mem.commits.Keys)
            && (forall p <- PlacedBy(e.writes) :: p.intent.attempt != 0 ==> p.intent.attempt in e.session.mem.commits)
  {
    hide CommitRecord, SameIntent, WellIndexed, NextRecord;
    var m, i := s.mem, r.intent;
    if !(i.attempt != 0 && i.attempt in m.commits) {
      match NextRecord(m, r) {
        case None =>
        case Some(p) => RecordRemembers(o, s, p);
      }
    }
  }

  lemma RecordRemembers(o: Options, s: Session, p: PlacementRecord)
    requires WellIndexed(s.mem) && (p.intent.attempt != 0 ==> p.intent.attempt !in s.mem.commits)
    ensures var e := CommitRecord(o, s, p);
            && Remembers(s.mem, e.session.mem)
            && (PlacedBy(e.writes) == [] || PlacedBy(e.writes) == [Durable(p)])
            && (PlacedBy(e.writes) != [] && p.intent.attempt != 0 ==> p.intent.attempt in e.session.mem.commits)
  {
    hide WellIndexed, Compact;
    var raw := AppendRaw(o, s, Placed(p));
    if raw.code == OK {
      var e := raw.(session := raw.session.(mem := Index(raw.session.mem, p).(nextId := Increment(p.id))));
      assert WellIndexed(e.session.mem) by {
        Reindexed(s.mem, raw.session.mem);
        Reindexed(Index(raw.session.mem, p), e.session.mem);
      }
      CompactRemembers(o, e.session);
      MaybeCompactAdds(o, e);
      assert PlacedBy(e.writes) == Added(e.writes[0]) + PlacedBy(e.writes[1..]);
    }
  }

  /** While a store stays open, no attempt ever owns two placements. */
  lemma {:induction false} OnePlacementPerAttempt(o: Options, s: Session, ops: seq<Op>)
    requires WellIndexed(s.mem)
    ensures var r := PerformAll(o, s, ops);
            && Remembers(s.mem, r.session.mem)
            && OwnAttempts(r.placed, s.mem.commits.Keys)
    decreases |ops|
  {
    hide WellIndexed, Perform;
    if ops != [] {
      var e := Perform(o, s, ops[0]);
      PerformRemembers(o, s, ops[0]);
      OnePlacementPerAttempt(o, e.session, ops[1..]);
      var m, n := s.mem.placements, PerformAll(o, s, ops).session.mem.placements;
      assert n[..|m|] == n[..|e.session.mem.placements|][..|m|];
      OwnAttemptsJoin(PlacedBy(e.writes), PerformAll(o, e.session, ops[1..]).placed, s.mem.commits.Keys, e.session.mem.commits.Keys);
    }
  }

  lemma OwnAttemptsJoin(a: seq<PlacementRecord>, b: seq<PlacementRecord>, taken: set<u64>, later: set<u64>)
    requires OwnAttempts(a, taken) && OwnAttempts(b, later) && taken <= later
    requires forall p <- a :: p.intent.attempt != 0 ==> p.intent.attempt in later
    ensures OwnAttempts(a + b, taken)
  {
  }

  /** Retrying a committed attempt, however much later, answers the same placement and writes nothing. */
  lemma RetryAnswersTheSame(o: Options, s: Session, r: Request, ops: seq<Op>, again: Request)
    requires WellIndexed(s.mem) && CommitPlacement(o, s, r).record.Some?
    requires r.intent.attempt != 0 && SameIntent(again.intent, r.intent) && again.digestMatches
    ensures var first := CommitPlacement(o, s, r);
            var later := PerformAll(o, first.session, ops).session;
            CommitPlacement(o, later, again) == Effect(OK, later, [], first.record)
  {
    hide PerformAll, CommitPlacement, WellIndexed, SameIntent;
    var first := CommitPlacement(o, s, r);
    var p := first.record.value;
    CommitIsIndexed(o, s, r, p);
    OnePlacementPerAttempt(o, first.session, ops);
    var later := PerformAll(o, first.session, ops).session;
    CommittedOn(first.session.mem, later.mem, p);
    SameOnward(p.intent, r.intent, again.intent);
    KnownAttempt(o, later, again, p);
  }

  lemma SameOnward(a: Intent, b: Intent, c: Intent)
    requires SameIntent(a, b) && SameIntent(c, b)
    ensures SameIntent(a, c) && c.flow == b.flow && c.path == b.path && c.pathAuthority == b.pathAuthority
  {
  }

  /** The memory holds this record for its attempt. */
  predicate Committed(m: Mem, p: PlacementRecord) {
    var a := p.intent.attempt;
    a != 0 && a in m.commits && m.commits[a] < |m.placements| && m.placements[m.commits[a]] == p
  }

  lemma KnownAttempt(o: Options, s: Session, r: Request, p: PlacementRecord)
    requires WellIndexed(s.mem) && Committed(s.mem, p) && SameIntent(p.intent, r.intent) && r.digestMatches
    requires r.intent.flow != 0 && r.intent.path != 0 && r.intent.pathAuthority != 0
    ensures CommitPlacement(o, s, r) == Effect(OK, s, [], Some(p))
  {
  }

  lemma CommittedOn(m: Mem, m': Mem, p: PlacementRecord)
    requires Committed(m, p) && Remembers(m, m')
    ensures Committed(m', p)
  {
    var i := m.commits[p.intent.attempt];
    assert m'.placements[i] == m'.placements[..|m.placements|][i];
  }

  lemma CommitIsIndexed(o: Options, s: Session, r: Request, p: PlacementRecord)
    requires WellIndexed(s.mem) && CommitPlacement(o, s, r).record == Some(p) && r.intent.attempt != 0
    ensures r.intent.flow != 0 && r.intent.path != 0 && r.intent.pathAuthority != 0
    ensures Committed(CommitPlacement(o, s, r).session.mem, p) && SameIntent(p.intent, r.intent)
  {
    hide Compact, WellIndexed, CommitRecord, NextRecord;
    var m, i := s.mem, r.intent;
    if i.attempt in m.commits {
      InRange(m, i.attempt);
    } else {
      RecordIsIndexed(o, s, NextRecord(m, r).value);
    }
  }

  lemma RecordIsIndexed(o: Options, s: Session, p: PlacementRecord)
    requires WellIndexed(s.mem) && p.intent.attempt != 0
    ensures var e := CommitRecord(o, s, p); e.record.None? || (e.record == Some(p) && Committed(e.session.mem, p))
  {
    hide Compact, WellIndexed;
    var raw := AppendRaw(o, s, Placed(p));
    if raw.code == OK {
      var indexed := Index(raw.session.mem, p);
      var next := indexed.(nextId := Increment(p.id));
      var e := raw.(session := raw.session.(mem := next));
      Reindexed(s.mem, raw.session.mem);
      Reindexed(indexed, next);
      MaybeCompactAdds(o, e);
      CompactRemembers(o, e.session);
    }
  }

  // ---- what is written ---------------------------------------------------------------------------

  /** A record carries the sequence of the journal record that holds it. */
  predicate InSequence(w: Write) {
    w.Append? ==>
      match w.line.item
      case Placed(p) => p.sequence == w.line.sequence
      case Tried(a) => a.sequence == w.line.sequence
      case Reset(_) => true
  }

  lemma CompactInSequence(o: Options, s: Session)
    requires WellIndexed(s.mem)
    ensures forall w <- Compact(o, s).writes :: InSequence(w) && (w.Append? ==> w.line.item.Reset?)
  {
    hide WellIndexed, MakeSnapshot;
  }

  lemma MaybeCompactInSequence(o: Options, e: Effect)
    requires WellIndexed(e.session.mem) && forall w <- e.writes :: InSequence(w)
    ensures forall w <- MaybeCompact(o, e).writes :: InSequence(w)
  {
    hide WellIndexed, Compact, InSequence;
    CompactInSequence(o, e.session);
  }

  lemma AttemptInSequence(o: Options, s: Session, a: AttemptRecord)
    requires WellIndexed(s.mem)
    ensures forall w <- AppendAttempt(o, s, Stamp(s, a)).writes :: InSequence(w)
  {
    hide WellIndexed, MaybeCompact;
    var raw := AppendRaw(o, s, Tried(Stamp(s, a)));
    if raw.code == OK {
      NoteKeeps(raw.session.mem, s.mem, Stamp(s, a));
      MaybeCompactInSequence(o, raw.(session := raw.session.(mem := Note(raw.session.mem, Stamp(s, a)))));
    }
  }

  lemma CommitInSequence(o: Options, s: Session, p: PlacementRecord)
    requires WellIndexed(s.mem) && p.sequence == Increment(s.mem.maxSequence)
    ensures forall w <- CommitRecord(o, s, p).writes :: InSequence(w)
  {
    hide WellIndexed, MaybeCompact;
    var raw := AppendRaw(o, s, Placed(p));
    if raw.code == OK {
      var e := raw.(session := raw.session.(mem := Index(raw.session.mem, p).(nextId := Increment(p.id))));
      assert WellIndexed(e.session.mem) by {
        Reindexed(s.mem, raw.session.mem);
        Reindexed(Index(raw.session.mem, p), e.session.mem);
      }
      MaybeCompactInSequence(o, e);
    }
  }

  /** The sequence a record is stamped with, on which retention relies, is that of its place in the journal. */
  lemma WrittenInSequence(o: Options, s: Session, op: Op)
    requires WellIndexed(s.mem)
    ensures forall w <- Perform(o, s, op).writes :: InSequence(w)
  {
    hide WellIndexed, AppendAttempt, CommitRecord, Compact, SameIntent, NextRecord;
    match op {
      case Start(a) => AttemptInSequence(o, s, a.(phase := Started));
      case Finish(a) => AttemptInSequence(o, s, a);
      case Commit(r) => if NextRecord(s.mem, r).Some? { CommitInSequence(o, s, NextRecord(s.mem, r).value); }
      case Fold => CompactInSequence(o, s);
    }
  }

  /** A placement that a commit writes says what was asked for: intent, relation, digest, author, epoch and time. */
  lemma CommitWritesTheRequest(o: Options, s: Session, r: Request)
    requires WellIndexed(s.mem)
    ensures var placed := PlacedBy(CommitPlacement(o, s, r).writes);
            |placed| <= 1 && forall p <- placed ::
              && p.intent == r.intent && p.delta == r.delta && p.digestHi == r.digestHi && p.digestLo == r.digestLo
              && p.committedBy == r.committedBy && p.commitEpoch == r.commitEpoch && p.commitUnixNanos == r.unixNanos
              && p.id == s.mem.nextId && r.digestMatches
  {
    hide CommitRecord, SameIntent, WellIndexed;
    var m, i := s.mem, r.intent;
    if !(i.attempt != 0 && i.attempt in m.commits) && NextRecord(m, r).Some? {
      NoZero(m);
      RecordRemembers(o, s, NextRecord(m, r).value);
    }
  }
}
