/** Every run of the coordinator is a run of its store, so a commit it reports survives whatever happens to the files. */
module CoordinatorDurable {
  import opened Bytes
  import opened Records
  import opened Recovery
  import opened StoreOps
  import opened StoreSafety
  import opened StoreReading
  import opened Coordinator
  import opened CoordinatorBackend
  import opened CoordinatorSafety
  import opened CoordinatorGuarantees
  import opened StoreGuarantees
  import StoreRuns
  import Reaping
  import Ordered

  // ---- one operation ---------------------------------------------------------------------------------

  /** The backend is the store that has just been opened in this world. */
  predicate Opened(b: Backend, w: StoreRuns.World) {
    b.OnDisk? && b.writes == [] && w.up == Some(StoreRuns.Handle(b.options, b.session))
  }

  /** The world in which a store was opened, after the durable steps it has taken since. */
  function Follow(w: StoreRuns.World, b: Backend): StoreRuns.World {
    match b
    case InMemory(_, _, _) => w
    case OnDisk(o, s, _, ws) =>
      w.(up := Some(StoreRuns.Handle(o, s)), disk := ApplyWrites(w.disk, ws), log := w.log + PlacedBy(ws))
  }

  lemma FollowOpened(b: Backend, w: StoreRuns.World)
    requires Opened(b, w)
    ensures Follow(w, b) == w
  {
    assert w.log + [] == w.log;
  }

  /** Operations of the open store, and nothing else, lead from w to w'. */
  ghost predicate Reaches(w: StoreRuns.World, w': StoreRuns.World) {
    exists es: seq<StoreRuns.Event> :: (forall e <- es :: e.Do?) && StoreRuns.Runs(w, es, w')
  }

  lemma ReachesSelf(w: StoreRuns.World)
    ensures Reaches(w, w)
  {
    assert StoreRuns.Runs(w, [], w);
  }

  lemma EventsTo(w: StoreRuns.World, w': StoreRuns.World) returns (es: seq<StoreRuns.Event>)
    requires Reaches(w, w')
    ensures (forall e <- es :: e.Do?) && StoreRuns.Runs(w, es, w')
  {
    hide StoreRuns.Runs;
    es :| (forall e: StoreRuns.Event <- es :: e.Do?) && StoreRuns.Runs(w, es, w');
  }

  lemma ReachesOn(w: StoreRuns.World, w1: StoreRuns.World, w2: StoreRuns.World)
    requires Reaches(w, w1) && Reaches(w1, w2)
    ensures Reaches(w, w2)
  {
    hide StoreRuns.Runs;
    var es := EventsTo(w, w1);
    var fs := EventsTo(w1, w2);
    StoreRuns.RunsOn(w, es, w1, fs, w2);
  }

  /** One operation of the open store, or nothing, and the backend is still of its kind. */
  ghost predicate Follows(w: StoreRuns.World, b: Backend, b': Backend) {
    b'.OnDisk? == b.OnDisk? && Reaches(Follow(w, b), Follow(w, b'))
  }

  lemma FollowsSelf(w: StoreRuns.World, b: Backend)
    ensures Follows(w, b, b)
  {
    hide Follow, Reaches;
    ReachesSelf(Follow(w, b));
  }

  lemma OperationReaches(b: Backend, b': Backend, op: Op, e: Effect, w: StoreRuns.World)
    requires b.OnDisk? && WellIndexed(b.session.mem) && e == Perform(b.options, b.session, op) && b' == After(b, e)
    ensures Follows(w, b, b')
  {
    hide Perform, ApplyWrites, PlacedBy, WellIndexed;
    var v, event := Follow(w, b), StoreRuns.Event.Do(op);
    StoreRuns.ApplyWritesAppend(w.disk, b.writes, e.writes);
    PlacedByAppend(b.writes, e.writes);
    assert w.log + PlacedBy(b.writes) + PlacedBy(e.writes) == w.log + (PlacedBy(b.writes) + PlacedBy(e.writes));
    assert StoreRuns.Step(v, event) == Follow(w, b');
    assert [event][1..] == [];
    assert StoreRuns.Runs(Follow(w, b'), [], Follow(w, b'));
    assert StoreRuns.Runs(v, [event], Follow(w, b'));
  }

  /** A closed store writes nothing; an open one performs one operation. */
  lemma RecordReaches(b: Backend, a: AttemptRecord, w: StoreRuns.World)
    ensures Follows(w, b, RecordAttempt(b, a).backend)
  {
    hide AppendAttemptStart, AppendAttemptTerminal, WellIndexed, Follow, Reaches, Follows;
    FollowsSelf(w, b);
    if b.OnDisk? {
      var op := if a.phase == Started then Op.Start(a) else Op.Finish(a);
      if b.closed {
        StoreRuns.ReadOnlyWritesNothing(b.options.(readOnly := true), b.session, op);
        assert b.writes + [] == b.writes;
      } else {
        OperationReaches(b, RecordAttempt(b, a).backend, op, Perform(b.options, b.session, op), w);
      }
    }
  }

  lemma CommitReaches(b: Backend, r: Request, w: StoreRuns.World)
    ensures Follows(w, b, CommitTo(b, r).backend)
  {
    hide CommitPlacement, WellIndexed, Reaches, ApplyWrites, PlacedBy;
    FollowsSelf(w, b);
    if b.OnDisk? && !b.closed {
      OperationReaches(b, CommitTo(b, r).backend, Op.Commit(r), Perform(b.options, b.session, Op.Commit(r)), w);
    }
  }

  // ---- one region, one step, one run ---------------------------------------------------------------------

  /** A region leaves the store alone, journals one phase, or commits one request. */
  ghost predicate Operated(b: Backend, b': Backend) {
    || b' == b
    || (exists a :: b' == RecordAttempt(b, a).backend)
    || (exists r :: b' == CommitTo(b, r).backend)
  }

  lemma RegionOperates(c: Context, t: Task, slot: Slot, x: Input)
    ensures Operated(c.backend, Region(c, t, slot, x).backend)
  {
    hide RecordAttempt, CommitTo, BoundaryCode, StateForFailure, FinalizeSlot, WellIndexed;
  }

  lemma OperatedReaches(b: Backend, b': Backend, w: StoreRuns.World)
    requires Operated(b, b')
    ensures Follows(w, b, b')
  {
    hide RecordAttempt, CommitTo, Follows, WellIndexed;
    if b' == b {
      FollowsSelf(w, b);
    } else if a :| b' == RecordAttempt(b, a).backend {
      RecordReaches(b, a, w);
    } else {
      var r :| b' == CommitTo(b, r).backend;
      CommitReaches(b, r, w);
    }
  }

  /** Every step of the coordinator is at most one operation of its store. */
  lemma StepOperates(s: State, a: Action)
    ensures a.Close? || Operated(s.backend, Do(s, a).backend)
  {
    hide Region, RecordAttempt, CommitTo, DoShutdown, DoRegister, WellIndexed;
    if Enabled(s, a) {
      if a.Register? { RegisterKeepsStore(s, a.ask, a.queued); }
      if a.Go? {
        var k := s.tasks[a.thread];
        assert k in s.tasks;
        if OnSlot(k) { RegionOperates(ContextOf(s), k, s.slots[k.slot], a.input); }
      }
      if a.Shutdown? {
        if s.run == Up { var journal := ShutdownHalts(s, a.cancelActive); } else { NotUp(s, a.cancelActive); }
      }
    }
  }

  lemma RegisterKeepsStore(s: State, a: Ask, queued: bool)
    ensures DoRegister(s, a, queued).backend == s.backend
  {
    hide Reaping.Reap, InFlight;
  }

  lemma CloseReaches(s: State, w: StoreRuns.World)
    ensures Follows(w, s.backend, Do(s, Close).backend)
  {
    hide Reaches, WellIndexed;
    ReachesSelf(Follow(w, s.backend));
  }

  /** Every run of the coordinator is a run of operations of the store it was given, opened in world w. */
  lemma {:induction false} RunIsStoreRun(s: State, actions: seq<Action>, s': State, w: StoreRuns.World)
    requires Runs(s, actions, s')
    ensures Follows(w, s.backend, s'.backend)
    decreases |actions|
  {
    hide Do, Enabled, Reaches, Follow, Operated;
    if actions == [] {
      FollowsSelf(w, s.backend);
    } else {
      var s1 := Do(s, actions[0]);
      if actions[0].Close? {
        CloseReaches(s, w);
      } else {
        StepOperates(s, actions[0]);
        OperatedReaches(s.backend, s1.backend, w);
      }
      RunIsStoreRun(s1, actions[1..], s', w);
      ReachesOn(Follow(w, s.backend), Follow(w, s1.backend), Follow(w, s'.backend));
    }
  }

  // ---- what a committed attempt is worth -------------------------------------------------------------------

  /** The history holds the record that slot i names. */
  predicate Listed(log: seq<PlacementRecord>, s: State, i: nat) {
    i < |s.slots| && exists p <- log :: p.id == s.slots[i].placementId && p.generation == s.slots[i].generation
  }

  /**
   A slot reported as committed names a record of the durable history, and so it stays whatever happens
   to the store afterwards: operations, crashes at any durable step, reopenings that cut no whole record
   off. Every later opening that reads what the files hold refuses or shows the whole history.
   */
  lemma CommittedIsDurable(es: seq<StoreRuns.Event>, w: StoreRuns.World, s: State, actions: seq<Action>, s': State, i: nat,
                           later: seq<StoreRuns.Event>, end: StoreRuns.World, r: Options)
    requires StoreRuns.Runs(StoreRuns.GENESIS, es, w) && Opened(s.backend, w) && Safe(s) && TableListed(s)
    requires Runs(s, actions, s') && EndedAs(s', i, IsCommitted)
    requires StoreRuns.Runs(Follow(w, s'.backend), later, end)
    requires end.intact && StoreRuns.IdsLeft(end.log)
    ensures Listed(Follow(w, s'.backend).log, s', i) && Follow(w, s'.backend).log <= end.log
    ensures Listed(end.log, s', i) && OpensTo(r, end.disk, end.log)
  {
    hide Runs, Safe, TableListed, Shows, Open, StoreRuns.Runs, StoreRuns.IdsLeft, Listed, Numbered, Follow, EndedAs,
         ReadsAll, StoreRuns.Partial, Opened, WellIndexed;
    var mid := Follow(w, s'.backend);
    StoreRuns.RunGrows(mid, later, end);
    FewerIds(mid.log, end.log);
    var fs := CommittedIsListed(es, w, s, actions, s', i);
    StoreRuns.RunsOn(StoreRuns.GENESIS, fs, mid, later, end);
    NothingLost(fs + later, end, r);
    StillListed(mid.log, end.log, s', i);
  }

  lemma CommittedIsListed(es: seq<StoreRuns.Event>, w: StoreRuns.World, s: State, actions: seq<Action>, s': State, i: nat)
    returns (fs: seq<StoreRuns.Event>)
    requires StoreRuns.Runs(StoreRuns.GENESIS, es, w) && Opened(s.backend, w) && Safe(s) && TableListed(s)
    requires Runs(s, actions, s') && EndedAs(s', i, IsCommitted)
    requires Follow(w, s'.backend).intact && StoreRuns.IdsLeft(Follow(w, s'.backend).log)
    ensures StoreRuns.Runs(StoreRuns.GENESIS, fs, Follow(w, s'.backend)) && Listed(Follow(w, s'.backend).log, s', i)
  {
    hide Runs, Safe, TableListed, StoreRuns.Runs, StoreRuns.IdsLeft, Listed, Follow, EndedAs, StoreRuns.Sound, RecordHeld, Reaches,
         WellIndexed;
    FollowOpened(s.backend, w);
    RunIsStoreRun(s, actions, s', w);
    CommittedIsBacked(s, actions, s', i);
    var mid := Follow(w, s'.backend);
    var gs := EventsTo(w, mid);
    fs := es + gs;
    StoreRuns.RunsOn(StoreRuns.GENESIS, es, w, gs, mid);
    StoreRuns.GenesisSound();
    StoreRuns.RunsSound(StoreRuns.GENESIS, fs, mid);
    HeldIsListed(w, s', i);
  }

  lemma FewerIds(log: seq<PlacementRecord>, more: seq<PlacementRecord>)
    requires |log| <= |more| && StoreRuns.IdsLeft(more)
    ensures StoreRuns.IdsLeft(log)
  {
  }

  lemma HeldIsListed(w: StoreRuns.World, s: State, i: nat)
    requires s.backend.OnDisk? && StoreRuns.Sound(Follow(w, s.backend)) && RecordHeld(s, i)
    ensures Listed(Follow(w, s.backend).log, s, i)
  {
    hide UpOk, Durable, LedgerOk, ApplyWrites, PlacedBy, StoreRuns.Partial, WellIndexed;
    var slot := s.slots[i];
    var p :| p in RecordsOf(s.backend) && p.id == slot.placementId && p.generation == slot.generation;
    assert Durable(p) in Follow(w, s.backend).log;
    DurableKeeps(p);
  }

  lemma DurableKeeps(p: PlacementRecord)
    ensures Durable(p).id == p.id && Durable(p).generation == p.generation
  {
  }

  lemma StillListed(log: seq<PlacementRecord>, more: seq<PlacementRecord>, s: State, i: nat)
    requires Listed(log, s, i) && log <= more
    ensures Listed(more, s, i)
  {
    var slot := s.slots[i];
    var p :| p in log && p.id == slot.placementId && p.generation == slot.generation;
    assert p in more;
  }
}
