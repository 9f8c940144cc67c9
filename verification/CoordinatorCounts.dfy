/** The coordinator's counters and its queue bound. */
module CoordinatorCounts {
  import opened Bytes
  import opened Records
  import opened Recovery
  import opened StoreOps
  import opened Reaping
  import opened Coordinator
  import opened CoordinatorBackend
  import opened CoordinatorSafety
  import opened CoordinatorGuarantees
  import Ordered

  // ---- counting ---------------------------------------------------------------------------------

  function Tally(tasks: seq<Task>, p: Task -> bool): nat {
    if tasks == [] then 0 else Tally(tasks[..|tasks| - 1], p) + if p(tasks[|tasks| - 1]) then 1 else 0
  }

  lemma {:induction false} TallyPut(tasks: seq<Task>, p: Task -> bool, t: nat, k: Task)
    requires t < |tasks|
    ensures Tally(tasks[t := k], p) == Tally(tasks, p) - (if p(tasks[t]) then 1 else 0) + (if p(k) then 1 else 0)
    decreases |tasks|
  {
    var n := |tasks| - 1;
    var put := tasks[t := k];
    if t == n {
      assert put[..n] == tasks[..n];
    } else {
      TallyPut(tasks[..n], p, t, k);
      assert put[..n] == tasks[..n][t := k];
    }
  }

  lemma TallyAdd(tasks: seq<Task>, p: Task -> bool, k: Task)
    ensures Tally(tasks + [k], p) == Tally(tasks, p) + if p(k) then 1 else 0
  {
    assert (tasks + [k])[..|tasks|] == tasks;
  }

  function InFlightCount(slots: seq<Slot>): nat {
    if slots == [] then 0 else InFlightCount(slots[..|slots| - 1]) + if slots[|slots| - 1].terminal then 0 else 1
  }

  /** The counters these slots should have produced. */
  function StatsOf(slots: seq<Slot>): Stats {
    if slots == [] then Stats(0, 0, 0, 0, 0, 0, 0)
    else
      var before := StatsOf(slots[..|slots| - 1]);
      var slot := slots[|slots| - 1];
      var counted := Admit(before);
      if slot.terminal then Completed(counted, slot.state) else counted
  }

  /** A finished attempt is in one of the five final states. */
  predicate Final(slot: Slot) {
    slot.terminal ==> slot.state != IsQueued && slot.state != IsRunning
  }

  lemma {:induction false} StatsPut(slots: seq<Slot>, i: nat, slot: Slot)
    requires i < |slots| && (slots[i].terminal ==> slot.terminal && slot.state == slots[i].state)
    ensures StatsOf(slots[i := slot]) ==
            if !slots[i].terminal && slot.terminal then Completed(StatsOf(slots), slot.state) else StatsOf(slots)
    decreases |slots|
  {
    hide Completed, StatsOf;
    var n := |slots| - 1;
    var put := slots[i := slot];
    StatsLast(slots);
    StatsLast(put);
    if i == n {
      assert put[..n] == slots[..n];
    } else {
      StatsPut(slots[..n], i, slot);
      assert put[..n] == slots[..n][i := slot];
      CompletedCommutes(StatsOf(slots[..n]), slot.state, slots[n].state);
    }
  }

  lemma StatsLast(slots: seq<Slot>)
    requires slots != []
    ensures var n := |slots| - 1;
            StatsOf(slots) == var counted := Admit(StatsOf(slots[..n]));
                              if slots[n].terminal then Completed(counted, slots[n].state) else counted
  {
  }

  function Admit(s: Stats): Stats { s.(accepted := s.accepted + 1) }

  lemma CompletedCommutes(s: Stats, a: AttemptState, b: AttemptState)
    ensures Admit(Completed(s, a)) == Completed(Admit(s), a)
    ensures Completed(Admit(Completed(s, a)), b) == Completed(Completed(Admit(s), b), a)
  {
  }

  lemma {:induction false} StatsBalance(slots: seq<Slot>)
    requires forall slot <- slots :: Final(slot)
    ensures var st := StatsOf(slots);
            && st.accepted == |slots| == st.completed + InFlightCount(slots)
            && st.completed == st.placed + st.rejected + st.cancelled + st.fenced + st.failed
    decreases |slots|
  {
    if slots != [] {
      assert forall slot <- slots[..|slots| - 1] :: slot in slots;
      assert Final(slots[|slots| - 1]);
      StatsBalance(slots[..|slots| - 1]);
    }
  }

  // ---- the invariant ------------------------------------------------------------------------------

  /** The counters agree with the slots, the queue, the threads and the number of workers. */
  predicate Counted(s: State, workers: nat) {
    && s.stats == StatsOf(s.slots) && (forall slot <- s.slots :: Final(slot))
    && s.queueDepth == |s.queue|
    && s.active == Tally(s.tasks, AtWork) && s.active + s.idle == workers
  }

  /** Submissions admitted but not yet in the queue. */
  function Pending(s: State): nat { Tally(s.tasks, Submitting) }

  /** What one region does to the counts. */
  predicate Conserves(t: Task, slot: Slot, r: Turn) {
    && (r.released <==> t.Releasing?)
    && (AtWork(r.task) <==> AtWork(t) && !r.released)
    && (r.enqueued ==> Submitting(t) && !Submitting(r.task))
    && (Submitting(r.task) ==> Submitting(t))
    && (Final(slot) ==> Final(r.slot))
  }

  lemma EarlyConserves(c: Context, t: Task, slot: Slot, x: Input)
    requires OnSlot(t) && !InBoundary(t) && !Settling(t)
    ensures Conserves(t, slot, Region(c, t, slot, x))
  {
    hide RecordAttempt, WellIndexed, CommitRegion, SettleRegion;
  }

  lemma LateConserves(c: Context, t: Task, slot: Slot, x: Input)
    requires InBoundary(t) || Settling(t)
    ensures Conserves(t, slot, Region(c, t, slot, x))
  {
    hide RecordAttempt, CommitDecision, BoundaryCode, StateForFailure, WellIndexed, RegisterRegion, DecideRegion;
    FailsFinally();
  }

  lemma FailsFinally()
    ensures forall code: StatusCode :: StateForFailure(code) != IsQueued && StateForFailure(code) != IsRunning
  {
  }

  lemma PutCounted(s: State, i: nat, a: Slot, b: Slot, workers: nat)
    requires Counted(s, workers) && HasSlot(s, i, a) && Evolves(a, b) && Final(b)
    ensures Counted(PutSlot(s, i, b), workers)
  {
    hide Completed, AtWork;
    StatsPut(s.slots, i, b);
  }

  lemma InstallCounted(s: State, t: nat, k: Task, i: nat, slot: Slot, r: Turn, workers: nat)
    requires Counted(s, workers) && Works(s, t, k, i, slot) && Evolves(slot, r.slot) && Conserves(k, slot, r)
    ensures Counted(Install(s, t, i, r), workers) && NoMore(s, Install(s, t, i, r))
  {
    hide Completed, AtWork, Submitting, WellIndexed;
    assert slot in s.slots;
    StatsPut(s.slots, i, r.slot);
    TallyPut(s.tasks, AtWork, t, r.task);
    TallyPut(s.tasks, Submitting, t, r.task);
    if AtWork(k) { TallyPositive(s.tasks, AtWork, t); }
    ReleasingWorks(k);
  }

  lemma ReleasingWorks(t: Task)
    ensures t.Releasing? ==> AtWork(t)
  {
  }

  lemma {:induction false} TallyPositive(tasks: seq<Task>, p: Task -> bool, t: nat)
    requires t < |tasks| && p(tasks[t])
    ensures Tally(tasks, p) > 0
    decreases |tasks|
  {
    if t < |tasks| - 1 {
      TallyPositive(tasks[..|tasks| - 1], p, t);
    }
  }

  /** The sum that bounds the queue never grows except by an admission. */
  predicate NoMore(s: State, s': State) {
    Pending(s') + |s'.queue| <= Pending(s) + |s.queue| && s'.capacity == s.capacity
  }

  /** The counts move on as they should. */
  predicate CountsOn(s: State, s': State, workers: nat) {
    Counted(s', workers) && NoMore(s, s')
  }

  /** A thread outside any region that counts nothing moves to, or starts at, a place that counts nothing but workers. */
  lemma MoveCounted(s: State, s': State, t: nat, k: Task, workers: nat)
    requires Counted(s, workers) && Moves(s, s', t, k) && (t < |s.tasks| ==> Idle(s.tasks[t])) && !Submitting(k)
    requires s'.stats == StatsOf(s'.slots) && (forall slot <- s'.slots :: Final(slot))
    requires s'.queueDepth == |s'.queue| <= |s.queue| && s'.capacity == s.capacity
    requires s'.active == s.active + (if AtWork(k) then 1 else 0) && s'.active + s'.idle == workers
    ensures CountsOn(s, s', workers)
  {
    hide AtWork, Submitting, StatsOf, Final;
    if t < |s.tasks| {
      TallyPut(s.tasks, AtWork, t, k);
      TallyPut(s.tasks, Submitting, t, k);
    } else {
      TallyAdd(s.tasks, AtWork, k);
      TallyAdd(s.tasks, Submitting, k);
    }
  }

  predicate Idle(t: Task) {
    !AtWork(t) && !Submitting(t)
  }

  lemma IdleTasks()
    ensures forall t: Task :: t.ShutdownNoting? || t.CancelNoting? || t.Prepared? || t.Redeeming? || t.Done? ==> Idle(t)
    ensures forall i: nat :: AtWork(Deciding(i, true)) && !Submitting(Deciding(i, true))
    ensures forall i: nat, queued: bool :: !AtWork(Starting(i, queued)) && (Submitting(Starting(i, queued)) <==> queued)
  {
  }

  lemma GoCounted(s: State, t: nat, x: Input, workers: nat)
    requires Safe(s) && Counted(s, workers) && CanGo(s, t)
    ensures CountsOn(s, DoGo(s, t, x), workers)
  {
    hide Safe, Region, WellIndexed, AuthorityMatches, RecordAttempt, Counted, Conserves, AtWork, Submitting, Install, Idle;
    SafeIndexed(s);
    IdleTasks();
    var k := s.tasks[t];
    assert k in s.tasks;
    if OnSlot(k) && !k.Prepared? {
      var i, slot := k.slot, s.slots[k.slot];
      RegionTurns(s, t, x, k, i, slot);
      if InBoundary(k) || Settling(k) { LateConserves(ContextOf(s), k, slot, x); } else { EarlyConserves(ContextOf(s), k, slot, x); }
      TurnedSlot(s, t, k, i, slot, Region(ContextOf(s), k, slot, x));
      InstallCounted(s, t, k, i, slot, Region(ContextOf(s), k, slot, x), workers);
    } else {
      CountedParts(s, workers);
      IdleIs(DoGo(s, t, x).tasks[t]);
      MoveCounted(s, DoGo(s, t, x), t, DoGo(s, t, x).tasks[t], workers);
    }
  }

  lemma CountedParts(s: State, workers: nat)
    requires Counted(s, workers)
    ensures s.stats == StatsOf(s.slots) && (forall slot <- s.slots :: Final(slot)) && s.queueDepth == |s.queue|
    ensures s.active + s.idle == workers
  {
  }

  lemma EndOneCounted(e: Ended, a: u64, queued: bool, cancelActive: bool, workers: nat)
    requires Counted(e.state, workers)
    ensures var s' := EndOne(e, a, queued, cancelActive).state; Counted(s', workers)
  {
    hide Completed, AtWork, StatsOf, WellIndexed;
    if Ends(e.state, a, queued, cancelActive) {
      var i := e.state.table[a];
      assert e.state.slots[i] in e.state.slots;
      PutCounted(e.state, i, e.state.slots[i], ShutdownSlot(e.state.slots[i]), workers);
    }
  }

  lemma {:induction false} EndAllCounted(e: Ended, ids: seq<u64>, queued: bool, cancelActive: bool, workers: nat)
    requires Counted(e.state, workers)
    ensures var s' := EndAll(e, ids, queued, cancelActive).state; Counted(s', workers)
    decreases |ids|
  {
    hide EndOne, Counted;
    if ids != [] {
      EndOneCounted(e, ids[0], queued, cancelActive, workers);
      EndAllCounted(EndOne(e, ids[0], queued, cancelActive), ids[1..], queued, cancelActive, workers);
    }
  }

  lemma ShutdownCounted(s: State, cancelActive: bool, workers: nat)
    requires Counted(s, workers)
    ensures CountsOn(s, DoShutdown(s, cancelActive), workers)
  {
    hide EndAll, AtWork, Submitting, StatsOf, Final, Indexed, WellIndexed, Idle, Halted;
    var s0 := s.(run := ShuttingDown);
    EndAllCounted(Ended(s0, []), s.queue, true, cancelActive, workers);
    EndAllHalts(Ended(s0, []), s.queue, true, cancelActive);
    var first := EndAll(Ended(s0, []), s.queue, true, cancelActive);
    var emptied := Ended(first.state.(queue := [], queueDepth := 0), first.journal);
    EndAllCounted(emptied, Ordered.Ascending(s.table.Keys), false, cancelActive, workers);
    EndAllHalts(emptied, Ordered.Ascending(s.table.Keys), false, cancelActive);
    var last := EndAll(emptied, Ordered.Ascending(s.table.Keys), false, cancelActive);
    IdleTasks();
    assert Idle(ShutdownNoting(last.journal)) ==> !AtWork(ShutdownNoting(last.journal)) && !Submitting(ShutdownNoting(last.journal)) by {
      IdleIs(ShutdownNoting(last.journal));
    }
    if s.run == Up && Indexed(s) { MoveCounted(last.state, DoShutdown(s, cancelActive), |s.tasks|, ShutdownNoting(last.journal), workers); }
  }

  lemma IdleIs(t: Task)
    ensures Idle(t) <==> !AtWork(t) && !Submitting(t)
  {
  }

  lemma RegisterCounted(s: State, a: Ask, queued: bool, workers: nat)
    requires TableListed(s) && Counted(s, workers)
    ensures var s' := DoRegister(s, a, queued);
            Counted(s', workers) && s'.queue == s.queue && s'.capacity == s.capacity && (NoMore(s, s') || |s.queue| < s.capacity)
  {
    hide DoRegister, AtWork, Submitting, TableListed, WellIndexed;
    if Admissible(s, a, queued) {
      RegisterReaps(s, a, queued);
      TallyAdd(s.tasks, AtWork, Starting(|s.slots|, queued));
      TallyAdd(s.tasks, Submitting, Starting(|s.slots|, queued));
      IdleTasks();
    } else {
      NotAdmitted(s, a, queued);
    }
  }

  lemma PopCounted(s: State, workers: nat)
    requires Counted(s, workers)
    ensures CountsOn(s, DoPop(s), workers)
  {
    hide Submitting, AtWork, WellIndexed, Indexed, StatsOf, Final, Idle;
    if CanPop(s) && Indexed(s) {
      var s1 := s.(queue := s.queue[1..], queueDepth := s.queueDepth - 1);
      var id := s.queue[0];
      if id in s.table && Takes(s, s.table[id]) {
        var i := s.table[id];
        var slot := s.slots[i].(state := IsRunning, inWorker := true);
        FinalWhile(slot);
        PutCounted(s1, i, s.slots[i], slot, workers);
        IdleTasks();
        MoveCounted(s1, DoPop(s), |s.tasks|, Deciding(i, true), workers);
      } else {
        IndexedTable(s);
      }
    }
  }

  /** Slot i has not ended. */
  predicate Takes(s: State, i: nat) {
    i < |s.slots| && !s.slots[i].terminal
  }

  lemma IndexedTable(s: State)
    requires Indexed(s)
    ensures TableKnown(s)
  {
  }

  lemma FinalWhile(slot: Slot)
    ensures !slot.terminal ==> Final(slot)
  {
  }

  lemma CancelCounted(s: State, attempt: u64, workers: nat)
    requires Counted(s, workers)
    ensures CountsOn(s, DoCancel(s, attempt), workers)
  {
    hide Submitting, AtWork, WellIndexed, StatsOf, Idle;
    if Cancellable(s, attempt) {
      var i := s.table[attempt];
      assert s.slots[i] in s.slots;
      PutCounted(s, i, s.slots[i], CancelSlot(s.slots[i]), workers);
      IdleTasks();
      IdleIs(CancelNoting(i));
      if DoCancel(s, attempt).tasks != s.tasks {
        MoveCounted(s, DoCancel(s, attempt), |s.tasks|, CancelNoting(i), workers);
      }
    }
  }

  lemma StepCounted(s: State, a: Action, workers: nat)
    requires Safe(s) && TableListed(s) && Counted(s, workers)
    ensures Counted(Do(s, a), workers) && Do(s, a).capacity == s.capacity
    ensures NoMore(s, Do(s, a)) || (a.Register? && |s.queue| < s.capacity && Do(s, a).queue == s.queue)
  {
    hide Safe, DoRegister, DoGo, DoPop, DoCancel, DoShutdown, AtWork, Submitting, StatsOf, TableListed, WellIndexed, Idle;
    SafeIndexed(s);
    IdleTasks();
    if Enabled(s, a) {
      match a {
        case Register(ask, queued) => RegisterCounted(s, ask, queued, workers);
        case Go(t, x) => GoCounted(s, t, x, workers);
        case Copy(t) =>
          IdleIs(s.tasks[t]);
          MoveCounted(s, Do(s, a), |s.tasks|, s.tasks[t], workers);
        case Pop => PopCounted(s, workers);
        case Cancel(attempt) => CancelCounted(s, attempt, workers);
        case Await(attempt) =>
          if attempt in s.table {
            var i := s.table[attempt];
            assert s.slots[i] in s.slots;
            PutCounted(s, i, s.slots[i], FinalizeSlot(s.slots[i], IsFailed, SHUTTING_DOWN), workers);
          }
        case Shutdown(cancelActive) => ShutdownCounted(s, cancelActive, workers);
        case _ =>
      }
    }
  }

  // ---- over whole runs ---------------------------------------------------------------------------------

  /** No state of the run has more than n submissions between admission and the queue. */
  predicate AtMostPending(s: State, actions: seq<Action>, n: nat)
    decreases |actions|
  {
    hide *;
    Pending(s) <= n && (actions == [] || AtMostPending(Do(s, actions[0]), actions[1..], n))
  }

  /**
   Accepted attempts are completed or in flight, every completion is in one of the five counters, the queue
   depth is the queue's length, the active count is the number of workers that hold a slot, and every worker
   is active or idle.
   */
  predicate Balanced(s: State, workers: nat) {
    && s.stats.accepted == |s.slots| == s.stats.completed + InFlightCount(s.slots)
    && s.stats.completed == s.stats.placed + s.stats.rejected + s.stats.cancelled + s.stats.fenced + s.stats.failed
    && s.queueDepth == |s.queue|
    && s.active == Tally(s.tasks, AtWork) && s.active + s.idle == workers
  }

  lemma {:induction false} RunCounted(s: State, actions: seq<Action>, s': State, workers: nat, n: nat)
    requires Safe(s) && TableListed(s) && Counted(s, workers) && Runs(s, actions, s')
    ensures Counted(s', workers) && s'.capacity == s.capacity
    ensures AtMostPending(s, actions, n) && Pending(s) + |s.queue| < s.capacity + n ==> Pending(s') + |s'.queue| < s'.capacity + n
    decreases |actions|
  {
    hide Safe, TableListed, Do, Enabled, Counted, Pending;
    if actions != [] {
      var s1 := Do(s, actions[0]);
      StepKeeps(s, actions[0]);
      StepCounted(s, actions[0], workers);
      RunCounted(s1, actions[1..], s', workers, n);
      if AtMostPending(s, actions, n) { AtMostNow(s1, actions[1..], n); }
    }
  }

  lemma AtMostNow(s: State, actions: seq<Action>, n: nat)
    requires AtMostPending(s, actions, n)
    ensures Pending(s) <= n
  {
    hide Do, Pending;
  }

  /** The counters agree with the slots, the queue and the threads in every reachable state. */
  lemma CountersAgree(limit: nat, capacity: nat, workers: nat, epoch: u64, incarnation: u64, b: Backend,
                      actions: seq<Action>, s: State)
    requires Runs(Start(limit, capacity, workers, epoch, incarnation, b), actions, s)
    ensures Balanced(s, workers)
  {
    hide Runs, Safe, TableListed, WellIndexed, StatsOf, Tally;
    StartCounted(limit, capacity, workers, epoch, incarnation, b);
    RunCounted(Start(limit, capacity, workers, epoch, incarnation, b), actions, s, workers, 0);
    StatsBalance(s.slots);
  }

  lemma StartCounted(limit: nat, capacity: nat, workers: nat, epoch: u64, incarnation: u64, b: Backend)
    ensures var s := Start(limit, capacity, workers, epoch, incarnation, b);
            Safe(s) && TableListed(s) && Counted(s, workers) && Pending(s) == 0
  {
    hide Safe, TableListed, WellIndexed;
    StartSafe(limit, capacity, workers, epoch, incarnation, b);
  }

  /** With n submitters at a time at most, the queue and the admitted submissions stay below capacity + n. */
  lemma QueueIsBounded(limit: nat, capacity: nat, workers: nat, epoch: u64, incarnation: u64, b: Backend,
                       actions: seq<Action>, s: State, n: nat)
    requires capacity >= 1
    requires Runs(Start(limit, capacity, workers, epoch, incarnation, b), actions, s)
    requires AtMostPending(Start(limit, capacity, workers, epoch, incarnation, b), actions, n)
    ensures |s.queue| + Pending(s) <= capacity - 1 + n
  {
    hide Safe, TableListed, Runs, AtMostPending, Counted, Pending, WellIndexed;
    StartCounted(limit, capacity, workers, epoch, incarnation, b);
    RunCounted(Start(limit, capacity, workers, epoch, incarnation, b), actions, s, workers, n);
  }
}
