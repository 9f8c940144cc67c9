/** The attempt journal a coordinator writes: starts before terminal phases, and nothing after a terminal phase. */
module CoordinatorJournal {
  import opened Bytes
  import opened Records
  import opened Recovery
  import opened StoreOps
  import opened Reaping
  import opened Coordinator
  import opened CoordinatorBackend
  import opened CoordinatorSafety
  import opened CoordinatorGuarantees
  import Ordered

  predicate StartedIn(h: seq<AttemptRecord>, attempt: u64) {
    exists r <- h :: r.attempt == attempt && r.phase == Started
  }

  /** Every terminal phase comes after a start of its attempt, and is the last record of its attempt. */
  predicate InOrder(h: seq<AttemptRecord>) {
    && (forall k :: 0 <= k < |h| && h[k].phase != Started ==> StartedIn(h[..k], h[k].attempt))
    && (forall j, k :: 0 <= j < k < |h| && h[j].phase != Started ==> h[k].attempt != h[j].attempt)
  }

  /** The journal is in order, and the store remembers every terminal phase in it. */
  predicate Kept(s: State) {
    && InOrder(s.history)
    && (forall r <- s.history :: r.phase != Started ==> HasEnded(s.backend, r.attempt))
    && (s.backend.InMemory? ==> s.history == [])
  }

  /** The thread only runs once the start of its attempt is in the journal. */
  predicate Vouching(t: Task) {
    OnSlot(t) && !t.Starting? && !t.Refusing?
  }

  /** Whoever may journal a terminal phase is preceded by the start of its attempt. */
  predicate Vouched(s: State) {
    && Indexed(s)
    && (forall a <- s.table :: s.slots[s.table[a]].ask.attempt == a)
    && (s.backend.OnDisk? ==>
          && (forall slot <- s.slots :: slot.journalled ==> StartedIn(s.history, slot.ask.attempt))
          && (forall t <- s.tasks :: Backs(s, t))
          && (forall a <- s.queue :: StartedIn(s.history, a)))
  }

  /** Where the thread is, it may journal only for attempts whose start is in the journal. */
  predicate Backs(s: State, k: Task) {
    && (Vouching(k) ==> k.slot < |s.slots| && StartedIn(s.history, s.slots[k.slot].ask.attempt))
    && (k.ShutdownNoting? ==> forall a <- k.attempts :: StartedIn(s.history, a))
  }

  predicate Journaling(s: State) {
    Indexed(s) && Kept(s) && Vouched(s)
  }

  // ---- one record ------------------------------------------------------------------------------------

  lemma StillStarted(h: seq<AttemptRecord>, more: seq<AttemptRecord>)
    ensures forall a: u64 :: StartedIn(h, a) ==> StartedIn(h + more, a)
  {
    forall a: u64 | StartedIn(h, a) ensures StartedIn(h + more, a) {
      var r :| r in h && r.attempt == a && r.phase == Started;
      assert r in h + more;
    }
  }

  /** What a reply adds to the journal, for an attempt whose start is there unless it is the start. */
  predicate Adds(b: Backend, b': Backend, tried: seq<AttemptRecord>, attempt: u64, started: bool) {
    && (b.InMemory? ==> tried == [])
    && (tried == [] ||
        (|tried| == 1 && tried[0].attempt == attempt && !HasEnded(b, attempt)
         && (tried[0].phase != Started ==> started && HasEnded(b', attempt))))
  }

  lemma InOrderSnoc(h: seq<AttemptRecord>, r: AttemptRecord)
    requires InOrder(h) && (r.phase != Started ==> StartedIn(h, r.attempt))
    requires forall j :: 0 <= j < |h| && h[j].phase != Started ==> h[j].attempt != r.attempt
    ensures InOrder(h + [r])
  {
    hide StartedIn;
    forall k | 0 <= k < |h + [r]| ensures (h + [r])[..k] == h[..k] && (k < |h| ==> (h + [r])[k] == h[k]) {
    }
    assert h[..|h|] == h;
  }

  lemma KeptGrows(s: State, s': State, tried: seq<AttemptRecord>, attempt: u64, started: bool)
    requires Kept(s) && Grows(s.backend, s'.backend) && s'.history == s.history + tried
    requires Adds(s.backend, s'.backend, tried, attempt, started)
    requires started && s.backend.OnDisk? ==> StartedIn(s.history, attempt)
    ensures Kept(s')
  {
    hide HasEnded, StartedIn, RecordsOf, WellIndexed, InOrder;
    if tried == [] {
      assert s'.history == s.history;
    } else {
      assert s'.history == s.history + [tried[0]];
      InOrderSnoc(s.history, tried[0]);
    }
  }

  // ---- one region ----------------------------------------------------------------------------------------

  predicate Vouches(c: Context, t: Task, slot: Slot, r: Turn) {
    && Adds(c.backend, r.backend, r.tried, slot.ask.attempt, Vouching(t))
    && (Vouching(r.task) && !Vouching(t) && c.backend.OnDisk? ==> |r.tried| == 1 && r.tried[0].phase == Started)
    && (r.slot.journalled && !slot.journalled ==> Vouching(t))
    && (r.enqueued ==> Vouching(t))
  }

  lemma RegisterVouches(c: Context, t: Task, slot: Slot, x: Input)
    requires Registering(t)
    ensures Vouches(c, t, slot, RegisterRegion(c, t, slot, x))
  {
    hide Journaled, HasEnded, Grows, WellIndexed;
    if t.Starting? { JournaledFacts(c, slot, Ending(Started, OK), x.clock, Done); }
    if t.Catching? { JournaledFacts(c, slot, t.ending, x.clock, Registered(t.slot, t.queued)); }
  }

  lemma CommitVouches(c: Context, t: Task, slot: Slot, x: Input)
    requires InBoundary(t)
    ensures Vouches(c, t, slot, CommitRegion(c, t, slot, x))
  {
    hide Journaled, CommitDecision, HasEnded, BoundaryCode, Grows, WellIndexed;
    if t.Journalling? { JournaledFacts(c, slot, Ending(Committed, OK), x.clock, Finishing(t.slot, t.worker)); }
    if t.Appending? { DecisionFacts(c, slot, t.decision, x.clock); }
  }

  lemma SettleVouches(c: Context, t: Task, slot: Slot, x: Input)
    requires Settling(t)
    ensures Vouches(c, t, slot, SettleRegion(c, t, slot, x))
  {
    hide Journaled, HasEnded, Grows, WellIndexed;
    if t.Noting? { JournaledFacts(c, slot, t.ending, x.clock, Leave(t.slot, t.worker)); }
    if t.CancelNoting? { JournaledFacts(c, slot, Ending(Cancelled, CANCELLED), x.clock, Done); }
  }

  lemma RegionVouches(c: Context, t: Task, slot: Slot, x: Input)
    requires OnSlot(t)
    ensures Vouches(c, t, slot, Region(c, t, slot, x))
  {
    hide RegisterRegion, CommitRegion, SettleRegion, HasEnded, WellIndexed;
    if Registering(t) { RegisterVouches(c, t, slot, x); }
    else if InBoundary(t) { CommitVouches(c, t, slot, x); }
    else if Settling(t) { SettleVouches(c, t, slot, x); }
  }

  lemma VouchedGo(s: State, t: nat, k: Task, i: nat, slot: Slot, r: Turn)
    requires Journaling(s) && Works(s, t, k, i, slot) && Indexed(Install(s, t, i, r))
    requires r.slot.ask == slot.ask && (r.task.Done? || SlotOf(r.task) == i) && Grows(s.backend, r.backend)
    requires Vouches(ContextOf(s), k, slot, r)
    ensures Vouched(Install(s, t, i, r))
  {
    hide HasEnded, InOrder, StartedIn, WellIndexed, RecordsOf;
    var s' := Install(s, t, i, r);
    var a := slot.ask.attempt;
    assert k in s.tasks && slot in s.slots;
    StillStarted(s.history, r.tried);
    if |r.tried| == 1 && r.tried[0].phase == Started { StartsNow(s.history, r.tried); }
    assert forall y :: y in s'.slots ==> y == r.slot || y in s.slots;
    assert forall u :: u in s'.tasks ==> u == r.task || u in s.tasks;
  }

  lemma StartsNow(h: seq<AttemptRecord>, tried: seq<AttemptRecord>)
    requires |tried| == 1 && tried[0].phase == Started
    ensures StartedIn(h + tried, tried[0].attempt)
  {
    assert tried[0] in h + tried;
  }

  lemma TurnJournals(s: State, t: nat, k: Task, i: nat, slot: Slot, r: Turn)
    requires Journaling(s) && Turned(s, t, k, i, slot, r) && Vouches(ContextOf(s), k, slot, r)
    ensures Journaling(Install(s, t, i, r))
  {
    hide Grows, InForce, Adds, Kept, StartedIn, Install, WellIndexed;
    IndexedGo(s, t, i, r);
    assert k in s.tasks;
    KeptGrows(s, Install(s, t, i, r), r.tried, slot.ask.attempt, Vouching(k)) by { InstallHistory(s, t, i, r); }
    VouchedGo(s, t, k, i, slot, r);
  }

  lemma InstallHistory(s: State, t: nat, i: nat, r: Turn)
    ensures Install(s, t, i, r).history == s.history + r.tried && Install(s, t, i, r).backend == r.backend
  {
  }

  // ---- the other steps -----------------------------------------------------------------------------------

  /** Slots keep their attempt, and none is marked as journaled anew; new ones are not. */
  predicate Unmarked(s: State, s': State) {
    && |s.slots| <= |s'.slots|
    && (forall i :: 0 <= i < |s.slots| ==>
          s'.slots[i].ask == s.slots[i].ask && (s'.slots[i].journalled ==> s.slots[i].journalled))
    && (forall i :: |s.slots| <= i < |s'.slots| ==> !s'.slots[i].journalled)
  }

  predicate NamedByAttempt(s: State) {
    Indexed(s) && forall a <- s.table :: s.slots[s.table[a]].ask.attempt == a
  }

  /** Nothing is journaled, and whoever may journal was already vouched for. */
  lemma QuietJournals(s: State, s': State)
    requires Journaling(s) && Unmarked(s, s') && NamedByAttempt(s')
    requires s'.history == s.history && s'.backend == s.backend
    requires forall a <- s'.queue :: a in s.queue
    requires s.backend.OnDisk? ==> forall k <- s'.tasks :: k in s.tasks || Backs(s, k)
    ensures Journaling(s')
  {
    hide HasEnded, InOrder, StartedIn, WellIndexed;
    forall slot | slot in s'.slots && slot.journalled && s.backend.OnDisk? ensures StartedIn(s'.history, slot.ask.attempt) {
      var i :| 0 <= i < |s'.slots| && s'.slots[i] == slot;
      assert s.slots[i] in s.slots;
    }
  }

  lemma RegisterJournals(s: State, a: Ask, queued: bool)
    requires Journaling(s) && TableListed(s)
    ensures Journaling(DoRegister(s, a, queued))
  {
    hide DoRegister, TableListed, StartedIn, Kept, WellIndexed;
    if Admissible(s, a, queued) {
      RegisterReaps(s, a, queued);
      QuietJournals(s, DoRegister(s, a, queued));
    } else {
      NotAdmitted(s, a, queued);
    }
  }

  lemma PopJournals(s: State)
    requires Journaling(s)
    ensures Journaling(DoPop(s))
  {
    hide StartedIn, Kept, WellIndexed;
    if CanPop(s) {
      assert s.queue[0] in s.queue;
      assert forall a <- s.queue[1..] :: a in s.queue;
      QuietJournals(s, DoPop(s));
    }
  }

  lemma CancelJournals(s: State, attempt: u64)
    requires Journaling(s)
    ensures Journaling(DoCancel(s, attempt))
  {
    hide StartedIn, Kept, WellIndexed;
    if Cancellable(s, attempt) {
      assert s.slots[s.table[attempt]] in s.slots;
      QuietJournals(s, DoCancel(s, attempt));
    }
  }

  /** The attempts listed have started. */
  predicate AllStarted(s: State, attempts: seq<u64>) {
    s.backend.OnDisk? ==> forall a <- attempts :: StartedIn(s.history, a)
  }

  lemma EndOneJournals(e: Ended, a: u64, queued: bool, cancelActive: bool)
    requires Journaling(e.state) && AllStarted(e.state, e.journal)
    ensures var r := EndOne(e, a, queued, cancelActive); Journaling(r.state) && AllStarted(r.state, r.journal)
  {
    hide StartedIn, Kept, WellIndexed;
    if Ends(e.state, a, queued, cancelActive) {
      assert e.state.slots[e.state.table[a]] in e.state.slots;
      QuietJournals(e.state, EndOne(e, a, queued, cancelActive).state);
    }
  }

  lemma {:induction false} EndAllJournals(e: Ended, ids: seq<u64>, queued: bool, cancelActive: bool)
    requires Journaling(e.state) && AllStarted(e.state, e.journal)
    ensures var r := EndAll(e, ids, queued, cancelActive); Journaling(r.state) && AllStarted(r.state, r.journal)
    decreases |ids|
  {
    hide Journaling, EndOne, AllStarted;
    if ids != [] {
      EndOneJournals(e, ids[0], queued, cancelActive);
      EndAllJournals(EndOne(e, ids[0], queued, cancelActive), ids[1..], queued, cancelActive);
    }
  }

  lemma ShutdownJournals(s: State, cancelActive: bool)
    requires Journaling(s)
    ensures Journaling(DoShutdown(s, cancelActive))
  {
    hide Journaling, EndAll, AllStarted, Kept, WellIndexed;
    var s0 := s.(run := ShuttingDown);
    SameJournals(s, s0);
    NoneStarted(s0);
    EndAllJournals(Ended(s0, []), s.queue, true, cancelActive);
    var first := EndAll(Ended(s0, []), s.queue, true, cancelActive);
    var emptied := Ended(first.state.(queue := [], queueDepth := 0), first.journal);
    SameJournals(first.state, emptied.state);
    SameStarted(first.state, emptied.state, first.journal);
    EndAllJournals(emptied, Ordered.Ascending(s.table.Keys), false, cancelActive);
    var last := EndAll(emptied, Ordered.Ascending(s.table.Keys), false, cancelActive);
    NotingJournals(last.state, last.journal);
  }

  lemma NoneStarted(s: State)
    ensures AllStarted(s, [])
  {
  }

  lemma SameStarted(s: State, s': State, attempts: seq<u64>)
    requires AllStarted(s, attempts) && s'.backend == s.backend && s'.history == s.history
    ensures AllStarted(s', attempts)
  {
  }

  /** Fields the journal does not depend on; a queue that has shrunk. */
  lemma SameJournals(s: State, s': State)
    requires Journaling(s)
    requires s'.history == s.history && s'.backend == s.backend && s'.slots == s.slots && s'.tasks == s.tasks && s'.table == s.table
    requires forall a <- s'.queue :: a in s.queue
    ensures Journaling(s')
  {
    hide StartedIn, Kept, WellIndexed;
    QuietJournals(s, s');
  }

  lemma NotingJournals(s: State, journal: seq<u64>)
    requires Journaling(s) && AllStarted(s, journal)
    ensures Journaling(s.(tasks := s.tasks + [ShutdownNoting(journal)]))
  {
    hide StartedIn, Kept, WellIndexed;
    QuietJournals(s, s.(tasks := s.tasks + [ShutdownNoting(journal)]));
  }

  lemma RedeemJournals(s: State, t: nat, i: nat, d: Decision)
    requires Journaling(s) && t < |s.tasks| && s.tasks[t] == Prepared(i, d)
    ensures Journaling(Redeem(s, t, i, d))
  {
    hide StartedIn, Kept, WellIndexed;
    assert s.tasks[t] in s.tasks;
    QuietJournals(s, Redeem(s, t, i, d));
  }

  lemma NoteShutdownJournals(s: State, t: nat, attempts: seq<u64>, clock: i64)
    requires Journaling(s) && Notes(s, t, attempts)
    ensures Journaling(NoteShutdown(s, t, attempts, clock))
  {
    hide StartedIn, Kept, RecordAttempt, Grows, HasEnded, WellIndexed;
    assert s.tasks[t] in s.tasks;
    if attempts == [] {
      QuietJournals(s, NoteShutdown(s, t, attempts, clock));
    } else {
      assert forall a <- attempts[1..] :: a in attempts;
      var s1 := s.(tasks := s.tasks[t := ShutdownNoting(attempts[1..])]);
      QuietJournals(s, s1);
      if attempts[0] in s.table {
        assert attempts[0] in attempts;
        var a := AttemptOf(ContextOf(s), s.slots[s.table[attempts[0]]], Ending(Cancelled, SHUTTING_DOWN), clock);
        RecordFacts(s.backend, a);
        MoreJournaled(s1, NoteShutdown(s, t, attempts, clock), RecordAttempt(s.backend, a).tried, a.attempt);
      }
    }
  }

  lemma MoreJournaled(s: State, s': State, tried: seq<AttemptRecord>, attempt: u64)
    requires Journaling(s) && s' == s.(backend := s'.backend, history := s.history + tried)
    requires Grows(s.backend, s'.backend) && Adds(s.backend, s'.backend, tried, attempt, true)
    requires s.backend.OnDisk? ==> StartedIn(s.history, attempt)
    ensures Journaling(s')
  {
    hide StartedIn, Kept, Adds, RecordsOf, WellIndexed;
    KeptGrows(s, s', tried, attempt, true);
    StillStarted(s.history, tried);
  }

  lemma ThreadJournals(s: State, t: nat, x: Input)
    requires Safe(s) && Journaling(s) && CanGo(s, t)
    ensures Journaling(DoGo(s, t, x))
  {
    hide Safe, Journaling, Region, NoteShutdown, Redeem, Turned, Vouches, Install, WellIndexed;
    SafeIndexed(s);
    var k := s.tasks[t];
    assert k in s.tasks;
    if k.ShutdownNoting? {
      NoteShutdownJournals(s, t, k.attempts, x.clock);
    } else if k.Prepared? {
      RedeemJournals(s, t, k.slot, k.decision);
    } else {
      RegionTurns(s, t, x, k, k.slot, s.slots[k.slot]);
      RegionVouches(ContextOf(s), k, s.slots[k.slot], x);
      TurnJournals(s, t, k, k.slot, s.slots[k.slot], Region(ContextOf(s), k, s.slots[k.slot], x));
    }
  }

  lemma StepJournals(s: State, a: Action)
    requires Safe(s) && TableListed(s) && Journaling(s)
    ensures Journaling(Do(s, a))
  {
    hide Safe, Kept, StartedIn, DoRegister, DoPop, DoCancel, DoShutdown, DoGo, TableListed, WellIndexed;
    if Enabled(s, a) {
      match a {
        case Register(ask, queued) => RegisterJournals(s, ask, queued);
        case Go(t, x) => ThreadJournals(s, t, x);
        case Pop => PopJournals(s);
        case Cancel(attempt) => CancelJournals(s, attempt);
        case Shutdown(cancelActive) => ShutdownJournals(s, cancelActive);
        case Close => CloseJournals(s);
        case _ => OtherJournals(s, a);
      }
    }
  }

  /** The steps that journal nothing and move no thread. */
  lemma OtherJournals(s: State, a: Action)
    requires Journaling(s) && NamedByAttempt(Do(s, a)) && Enabled(s, a)
    requires a.Copy? || a.Await? || a.AdvanceEpoch? || a.SetAuthority? || a.Stop?
    ensures Journaling(Do(s, a))
  {
    hide Kept, StartedIn, WellIndexed;
    QuietJournals(s, Do(s, a));
  }

  lemma CloseJournals(s: State)
    requires Journaling(s)
    ensures Journaling(Do(s, Close))
  {
    hide StartedIn, InOrder;
  }

  lemma {:induction false} RunJournals(s: State, actions: seq<Action>, s': State)
    requires Safe(s) && TableListed(s) && Journaling(s) && Runs(s, actions, s')
    ensures Journaling(s')
    decreases |actions|
  {
    hide Safe, TableListed, Journaling, Do, Enabled;
    if actions != [] {
      StepKeeps(s, actions[0]);
      StepJournals(s, actions[0]);
      RunJournals(Do(s, actions[0]), actions[1..], s');
    }
  }

  lemma JournalingOrdered(s: State)
    requires Journaling(s)
    ensures InOrder(s.history)
  {
  }

  lemma StartJournals(limit: nat, capacity: nat, workers: nat, epoch: u64, incarnation: u64, b: Backend)
    ensures Journaling(Start(limit, capacity, workers, epoch, incarnation, b))
  {
  }

  /**
   In every interleaving the journal shows an attempt's start before its terminal phase, and nothing of
   an attempt after its terminal phase, however Cancel and Shutdown met its registration.
   */
  lemma JournalIsOrdered(limit: nat, capacity: nat, workers: nat, epoch: u64, incarnation: u64, b: Backend,
                         actions: seq<Action>, s: State)
    requires Runs(Start(limit, capacity, workers, epoch, incarnation, b), actions, s)
    ensures InOrder(s.history)
  {
    hide Runs, Safe, TableListed, Journaling, InOrder;
    var s0 := Start(limit, capacity, workers, epoch, incarnation, b);
    StartSafe(limit, capacity, workers, epoch, incarnation, b);
    StartJournals(limit, capacity, workers, epoch, incarnation, b);
    RunJournals(s0, actions, s);
    JournalingOrdered(s);
  }
}
