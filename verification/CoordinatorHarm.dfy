/** How an attempt may end once it has a placement: exactly which steps report it as anything but committed. */
module CoordinatorHarm {
  import opened Bytes
  import opened Records
  import opened Recovery
  import opened StoreOps
  import opened Reaping
  import opened Coordinator
  import opened CoordinatorBackend
  import opened CoordinatorSafety
  import opened CoordinatorGuarantees
  import opened CoordinatorOwners
  import Ordered

  // ---- which attempts in mid-commit a shutdown cancels ---------------------------------------------------

  /** Slot i has ended. */
  predicate Over(s: State, i: int) {
    0 <= i < |s.slots| && s.slots[i].terminal
  }

  /** Slot i is past the boundary and has not ended. */
  predicate MidCommit(s: State, i: int) {
    0 <= i < |s.slots| && s.slots[i].crossed && !s.slots[i].terminal
  }

  /** The id of slot i waits in the queue. */
  predicate Waiting(s: State, ids: seq<u64>, i: nat) {
    exists a <- ids :: Names(s, a, i)
  }

  lemma {:induction false} EndAllQueued(e: Ended, ids: seq<u64>, cancelActive: bool, i: nat)
    requires Indexed(e.state) && i < |e.state.slots|
    ensures Over(EndAll(e, ids, true, cancelActive).state, i) <==> Over(e.state, i) || Waiting(e.state, ids, i)
    decreases |ids|
  {
    hide WellIndexed, FinalizeSlot, Completed;
    if ids != [] {
      assert forall a :: a in ids <==> a == ids[0] || a in ids[1..];
      EndAllQueued(EndOne(e, ids[0], true, cancelActive), ids[1..], cancelActive, i);
      SlotEnds(e, ids[0], true, cancelActive, i);
    }
  }

  lemma SlotEnds(e: Ended, a: u64, queued: bool, cancelActive: bool, i: nat)
    requires Indexed(e.state)
    ensures var s' := EndOne(e, a, queued, cancelActive).state;
            && Indexed(s') && (Over(s', i) <==> Over(e.state, i) || (Ends(e.state, a, queued, cancelActive) && Names(e.state, a, i)))
  {
    hide WellIndexed, Completed;
  }

  lemma {:induction false} EndAllIdle(e: Ended, ids: seq<u64>, cancelActive: bool, i: nat)
    requires Indexed(e.state) && (Over(e.state, i) || MidCommit(e.state, i))
    ensures Over(EndAll(e, ids, false, cancelActive).state, i) <==> Over(e.state, i)
    decreases |ids|
  {
    hide WellIndexed, EndOne;
    if ids != [] {
      EndOneHalts(e, ids[0], false, cancelActive);
      SlotEnds(e, ids[0], false, cancelActive, i);
      EndAllIdle(EndOne(e, ids[0], false, cancelActive), ids[1..], cancelActive, i);
    }
  }

  /** Shutdown ends an attempt that has crossed the boundary exactly when its id waits in the queue. */
  lemma ShutdownEndsCrossed(s: State, cancelActive: bool, i: nat)
    requires Indexed(s) && s.run == Up && MidCommit(s, i)
    ensures Over(DoShutdown(s, cancelActive), i) <==> Waiting(s, s.queue, i)
  {
    hide EndAll, Evolves, WellIndexed;
    var s0 := s.(run := ShuttingDown);
    EndAllQueued(Ended(s0, []), s.queue, cancelActive, i);
    EndAllHalts(Ended(s0, []), s.queue, true, cancelActive);
    assert Waiting(s0, s.queue, i) == Waiting(s, s.queue, i) by { assert forall a: u64 :: Names(s0, a, i) == Names(s, a, i); }
    var first := EndAll(Ended(s0, []), s.queue, true, cancelActive);
    var emptied := Ended(first.state.(queue := [], queueDepth := 0), first.journal);
    EndAllIdle(emptied, Ordered.Ascending(s.table.Keys), cancelActive, i);
  }

  // ---- which steps end an attempt that has crossed -------------------------------------------------------

  /** In what state a region ends an unfinished slot, by the guard of the code that ends it. */
  function EndingOf(s: State, k: Task): Option<AttemptState> {
    if k.Refusing? || k.Rejecting? || (k.Redeeming? && !k.decision.placed) then Some(IsRejected)
    else if k.Enqueueing? && s.run != Up then Some(IsCancelled)
    else if k.Failing? then Some(StateForFailure(k.code))
    else if k.Finishing? then Some(IsCommitted)
    else None
  }

  /** In what state a step ends slot i, unfinished and past the boundary, if it does. Cancel never does. */
  function EndsAs(s: State, a: Action, i: nat): Option<AttemptState> {
    match a
    case Go(t, _) => if t < |s.tasks| && SlotOf(s.tasks[t]) == i then EndingOf(s, s.tasks[t]) else None
    case Await(attempt) => if Names(s, attempt, i) && s.run == Stopped then Some(IsFailed) else None
    case Shutdown(_) => if s.run == Up && Waiting(s, s.queue, i) then Some(IsCancelled) else None
    case _ => None
  }

  /** The slot has ended as announced. */
  predicate EndsSo(ending: Option<AttemptState>, slot: Slot) {
    match ending
    case None => !slot.terminal
    case Some(st) => slot.terminal && slot.state == st
  }

  lemma EarlyEnds(s: State, t: Task, slot: Slot, x: Input)
    requires OnSlot(t) && !InBoundary(t) && !Settling(t) && !slot.terminal
    ensures EndsSo(EndingOf(s, t), Region(ContextOf(s), t, slot, x).slot)
  {
    hide RecordAttempt, CommitRegion, SettleRegion, WellIndexed;
  }

  lemma LateEnds(s: State, t: Task, slot: Slot, x: Input)
    requires (InBoundary(t) || Settling(t)) && !slot.terminal
    ensures EndsSo(EndingOf(s, t), Region(ContextOf(s), t, slot, x).slot)
  {
    hide RecordAttempt, CommitDecision, BoundaryCode, StateForFailure, RegisterRegion, DecideRegion, WellIndexed;
  }

  /** A step ends a slot past the boundary exactly when EndsAs says so, and in that state. */
  lemma StepEnds(s: State, a: Action, i: nat)
    requires Enabled(s, a) && MidCommit(s, i)
    ensures forall st :: EndedAs(Do(s, a), i, st) <==> EndsAs(s, a, i) == Some(st)
  {
    hide Region, Reap, InFlight, EndingOf, DoShutdown, WellIndexed, Waiting, RecordAttempt;
    match a {
      case Go(t, x) =>
        var k := s.tasks[t];
        if k.Prepared? { assert EndingOf(s, k).None? by { PreparedEnds(s, k); } }
        else if SlotOf(k) == i {
          if InBoundary(k) || Settling(k) { LateEnds(s, k, s.slots[i], x); } else { EarlyEnds(s, k, s.slots[i], x); }
        }
      case Shutdown(cancelActive) =>
        if s.run == Up {
          ShutdownEndsCrossed(s, cancelActive, i);
          var journal := ShutdownHalts(s, cancelActive);
        } else {
          NotUp(s, cancelActive);
        }
      case _ =>
    }
  }

  lemma PreparedEnds(s: State, k: Task)
    requires k.Prepared?
    ensures EndingOf(s, k).None?
  {
  }

  // ---- which steps place ------------------------------------------------------------------------------------

  /** The placements a region makes. */
  function PlacedIn(c: Context, t: Task, slot: Slot, x: Input): seq<PlacementRecord> {
    if t.Appending? then CommitDecision(c, slot, t.decision, x.clock).placed else []
  }

  /** The step appends a placement for slot i. */
  predicate PlacesFor(s: State, a: Action, i: nat) {
    && a.Go? && CanGo(s, a.thread) && SlotOf(s.tasks[a.thread]) == i < |s.slots|
    && PlacedIn(ContextOf(s), s.tasks[a.thread], s.slots[i], a.input) != []
  }

  lemma RegionPlaces(c: Context, t: Task, slot: Slot, x: Input)
    requires OnSlot(t)
    ensures Region(c, t, slot, x).placed == PlacedIn(c, t, slot, x)
  {
    hide RecordAttempt, CommitDecision, BoundaryCode, FinalizeSlot, StateForFailure, WellIndexed;
  }

  lemma StepPlaces(s: State, a: Action, i: nat)
    requires Enabled(s, a)
    ensures HasPlacement(Do(s, a), i) <==> HasPlacement(s, i) || PlacesFor(s, a, i)
  {
    hide Region, Reap, InFlight, DoShutdown, RecordAttempt, PlacedIn, HasPlacement, WellIndexed;
    match a {
      case Go(t, x) =>
        var k := s.tasks[t];
        assert k in s.tasks;
        if OnSlot(k) && !k.Prepared? {
          RegionPlaces(ContextOf(s), k, s.slots[k.slot], x);
          MorePlacings(s, Do(s, a), k.slot, Region(ContextOf(s), k, s.slots[k.slot], x).placed, i);
        } else {
          SamePlacement(s, Do(s, a), i);
          if k.Prepared? { PreparedPlaces(ContextOf(s), k, s.slots[k.slot], x); }
        }
      case Shutdown(cancelActive) =>
        if s.run == Up { var journal := ShutdownHalts(s, cancelActive); } else { NotUp(s, cancelActive); }
        SamePlacement(s, Do(s, a), i);
      case _ => SamePlacement(s, Do(s, a), i);
    }
  }

  lemma PreparedPlaces(c: Context, t: Task, slot: Slot, x: Input)
    requires t.Prepared?
    ensures PlacedIn(c, t, slot, x) == []
  {
  }

  lemma SamePlacement(s: State, s': State, i: nat)
    requires s'.placings == s.placings
    ensures HasPlacement(s', i) == HasPlacement(s, i)
  {
  }

  lemma MorePlacings(s: State, s': State, k: nat, placed: seq<PlacementRecord>, i: nat)
    requires s'.placings == s.placings + Placings(s, k, placed)
    ensures HasPlacement(s', i) <==> HasPlacement(s, i) || (k == i && placed != [])
  {
    var more := Placings(s, k, placed);
    if placed != [] { assert more[0] in s'.placings; }
    assert forall p :: p in s'.placings <==> p in s.placings || p in more;
  }

  // ---- placed, and ended in some state -------------------------------------------------------------------------

  /** Slot i ended in this state, and has a placement. */
  predicate PlacedAs(s: State, i: nat, st: AttemptState) {
    EndedAs(s, i, st) && HasPlacement(s, i)
  }

  /** The step ends a slot that has a placement, or places for a slot that has ended. */
  predicate BringsAbout(s: State, a: Action, i: nat, st: AttemptState) {
    Enabled(s, a) && i < |s.slots|
    && if s.slots[i].terminal then s.slots[i].state == st && !HasPlacement(s, i) && PlacesFor(s, a, i)
       else HasPlacement(s, i) && EndsAs(s, a, i) == Some(st)
  }

  /** Exactly which steps make a slot one that ended in a given state and has a placement. */
  lemma StepPlacedAs(s: State, a: Action, i: nat, st: AttemptState)
    requires Safe(s)
    ensures PlacedAs(Do(s, a), i, st) <==> PlacedAs(s, i, st) || BringsAbout(s, a, i, st)
  {
    hide Do, Enabled, HasPlacement, PlacesFor, EndsAs, Safe;
    if !Enabled(s, a) {
      NotEnabled(s, a);
    } else {
      StepPlaces(s, a, i);
      if i < |s.slots| {
        StepEvolves(s, a);
        if !s.slots[i].terminal {
          if HasPlacement(s, i) { PlacedCrossed(s, i); StepEnds(s, a, i); }
          else if PlacesFor(s, a, i) { PlacesUnended(s, a, i, st); }
        }
      } else {
        NothingYet(s, a, i);
      }
    }
  }

  lemma NotEnabled(s: State, a: Action)
    requires !Enabled(s, a)
    ensures Do(s, a) == s
  {
    hide Enabled, DoRegister, DoGo, DoPop, DoCancel, DoAwait, DoShutdown;
  }

  /** Slot i has crossed. */
  predicate Crossed(s: State, i: nat) {
    i < |s.slots| && s.slots[i].crossed
  }

  lemma PlacedCrossed(s: State, i: nat)
    requires Safe(s) && HasPlacement(s, i)
    ensures Crossed(s, i)
  {
    hide Indexed, Locked, Checked, Backed, AuthorityMatches;
  }

  lemma PlacesUnended(s: State, a: Action, i: nat, st: AttemptState)
    requires Enabled(s, a) && Safe(s) && i < |s.slots| && !Over(s, i) && PlacesFor(s, a, i)
    ensures !EndedAs(Do(s, a), i, st)
  {
    hide Do, Locked, FencedPlacings, Backed, CommitDecision, AuthorityMatches, WellIndexed;
    assert s.tasks[a.thread] in s.tasks;
    StepEnds(s, a, i);
  }

  lemma NothingYet(s: State, a: Action, i: nat)
    requires i >= |s.slots|
    ensures !Over(Do(s, a), i)
  {
    hide Region, Reap, InFlight, DoShutdown, RecordAttempt, AuthorityMatches, WellIndexed;
    if a.Shutdown? && Enabled(s, a) {
      if s.run == Up { var journal := ShutdownHalts(s, a.cancelActive); } else { NotUp(s, a.cancelActive); }
    }
  }

  // ---- over whole runs ---------------------------------------------------------------------------------------

  /** Some step of the run brings it about. */
  predicate ComesAbout(s: State, actions: seq<Action>, i: nat, st: AttemptState)
    decreases |actions|
  {
    hide *;
    actions != [] && (BringsAbout(s, actions[0], i, st) || ComesAbout(Do(s, actions[0]), actions[1..], i, st))
  }

  lemma {:induction false} RunPlacedAs(s: State, actions: seq<Action>, s': State, i: nat, st: AttemptState)
    requires Safe(s) && TableListed(s) && Runs(s, actions, s')
    ensures PlacedAs(s', i, st) <==> PlacedAs(s, i, st) || ComesAbout(s, actions, i, st)
    decreases |actions|
  {
    hide Safe, TableListed, Do, Enabled, PlacedAs, BringsAbout;
    if actions != [] {
      StepKeeps(s, actions[0]);
      StepPlacedAs(s, actions[0], i, st);
      RunPlacedAs(Do(s, actions[0]), actions[1..], s', i, st);
    }
  }

  /**
   At the end of a run a slot is in some final state and has a placement exactly when some step of the run
   ended it in that state after it had the placement, or placed for it after it had ended in that state.
   */
  lemma PlacedAsExactly(limit: nat, capacity: nat, workers: nat, epoch: u64, incarnation: u64, b: Backend,
                        actions: seq<Action>, s: State, i: nat, st: AttemptState)
    requires Runs(Start(limit, capacity, workers, epoch, incarnation, b), actions, s)
    ensures PlacedAs(s, i, st) <==> ComesAbout(Start(limit, capacity, workers, epoch, incarnation, b), actions, i, st)
  {
    hide Runs, Safe, TableListed, ComesAbout;
    StartSafe(limit, capacity, workers, epoch, incarnation, b);
    RunPlacedAs(Start(limit, capacity, workers, epoch, incarnation, b), actions, s, i, st);
  }

  // ---- a commit that fails has written nothing ------------------------------------------------------------------

  /** The reply has taken no durable step and answers no record. */
  predicate Unwritten(b: Backend, e: Reply) {
    && e.record.None? && e.placed == [] && e.backend.OnDisk? == b.OnDisk?
    && (b.OnDisk? ==> e.backend.writes == b.writes)
  }

  /** Where files do not fail, a compaction that follows an append succeeds: an error means nothing was placed. */
  lemma FailedCommitPlacesNothing(b: Backend, r: Request)
    ensures if CommitTo(b, r).code == OK then CommitTo(b, r).record.Some? else Unwritten(b, CommitTo(b, r))
  {
    hide CommitPlacement, WellIndexed;
    if b.OnDisk? && !b.closed {
      FailedPlacementWritesNothing(b.options, b.session, r);
    }
  }

  lemma FailedPlacementWritesNothing(o: Options, s: Session, r: Request)
    requires WellIndexed(s.mem)
    ensures var e := CommitPlacement(o, s, r);
            (e.record.None? <==> e.code != OK) && (e.record.None? ==> e.writes == [])
  {
    hide CommitRecord, SameIntent, WellIndexed, NextRecord;
    if NextRecord(s.mem, r).Some? {
      FailedRecordWritesNothing(o, s, NextRecord(s.mem, r).value);
    }
  }

  lemma FailedRecordWritesNothing(o: Options, s: Session, p: PlacementRecord)
    requires WellIndexed(s.mem)
    ensures var e := CommitRecord(o, s, p);
            (e.record.None? <==> e.code != OK) && (e.record.None? ==> e.writes == [])
  {
    hide WellIndexed, MakeSnapshot, Index;
  }

  lemma FailedDecisionPlacesNothing(c: Context, slot: Slot, d: Decision, clock: i64)
    ensures var e := CommitDecision(c, slot, d, clock); e.record.None? ==> e.placed == []
  {
    hide CommitTo, WellIndexed;
    match d.intent {
      case None =>
      case Some(intent) =>
        FailedCommitPlacesNothing(c.backend, Request(intent, d.digestMatches, d.delta, d.digestHi, d.digestLo, c.incarnation,
                                                     slot.ask.expected.epoch, clock));
    }
  }

  // ---- one driver at a time ----------------------------------------------------------------------------------------

  /** The thread decides or commits its attempt, or will report how that ended. */
  predicate Driver(t: Task) {
    OnSlot(t) && !t.CancelNoting? && !t.Prepared?
  }

  /** A driver that has not been past the boundary checks. */
  predicate Unchecked(t: Task) {
    Registering(t) || t.Deciding? || t.Copying? || t.Redeeming? || t.Rejecting? || t.Entering? || t.Checking?
  }

  /** Nothing drives slot i, or it has ended. */
  predicate Free(s: State, i: int) {
    Over(s, i) || forall t <- s.tasks :: Driver(t) ==> SlotOf(t) != i
  }

  /** Ended, or not yet past the boundary. */
  predicate Clear(slot: Slot) {
    slot.terminal || !slot.crossed
  }

  /** The slot a prepared attempt finds when it is committed. */
  function Target(s: State, t: nat): Option<nat> {
    if t < |s.tasks| && s.tasks[t].Prepared? && s.tasks[t].slot < |s.slots| then
      var a := s.slots[s.tasks[t].slot].ask.attempt;
      if a in s.table then Some(s.table[a]) else None
    else None
  }

  /** After the stop, Await finds no commit in flight. */
  predicate Timely(s: State, a: Action) {
    a.Await? && s.run == Stopped && a.attempt in s.table ==> !MidCommit(s, s.table[a.attempt])
  }

  /**
   The step starts no second driver of an unfinished slot: a worker takes, and a commit finds, only what
   nobody drives; Shutdown finds no commit in flight in the queue, nor Await after the stop, unless late
   waiting is allowed.
   */
  predicate Orderly(s: State, a: Action, late: bool) {
    match a
    case Go(t, _) => Target(s, t).Some? ==> Free(s, Target(s, t).value)
    case Pop => CanPop(s) && s.queue[0] in s.table ==> Free(s, s.table[s.queue[0]])
    case Shutdown(_) => s.run == Up ==> forall id <- s.queue | id in s.table :: !MidCommit(s, s.table[id])
    case Await(attempt) => late || Timely(s, a)
    case _ => true
  }

  /** The slot has ended, other than by an Await that did not wait for a commit in flight. */
  predicate Settled(slot: Slot, late: bool) {
    slot.terminal && !(late && slot.state == IsFailed)
  }

  /** Where a thread is fits how far its slot has come; placed says whether the slot has a placement. */
  predicate Proper(t: Task, slot: Slot, placed: bool, late: bool) {
    && (Unchecked(t) && !slot.terminal ==> !slot.crossed)
    && (t.Noting? || t.Releasing? ==> slot.terminal)
    && (BeforeAppend(t) ==> !Settled(slot, late))
    && (BeforeAppend(t) || t.Failing? ==> slot.terminal || !placed)
  }

  predicate AllProper(s: State, late: bool) {
    Indexed(s) && forall t <- s.tasks | OnSlot(t) :: Proper(t, s.slots[t.slot], HasPlacement(s, t.slot), late)
  }

  /** An unfinished slot has one driver at most. */
  predicate Single(s: State) {
    forall t, u :: 0 <= t < u < |s.tasks| && Driver(s.tasks[t]) && Driver(s.tasks[u]) && SlotOf(s.tasks[t]) == SlotOf(s.tasks[u])
      ==> Over(s, SlotOf(s.tasks[t]))
  }

  predicate Driven(s: State, i: int) {
    exists t <- s.tasks :: Driver(t) && SlotOf(t) == i
  }

  /** An unfinished slot past the boundary has a driver. */
  predicate Steered(s: State) {
    forall i :: 0 <= i < |s.slots| && MidCommit(s, i) ==> Driven(s, i)
  }

  predicate Tidy(s: State, late: bool) {
    AllProper(s, late) && Single(s) && Steered(s)
  }

  // ---- one region ---------------------------------------------------------------------------------------------------

  /** What a region leaves of a thread that fitted its slot. */
  predicate StaysProper(t: Task, slot: Slot, placed: bool, r: Turn, late: bool) {
    && Proper(r.task, r.slot, placed || r.placed != [], late)
    && (Driver(r.task) ==> Driver(t))
    && (Driver(t) && !Driver(r.task) ==> Clear(r.slot))
    && (!Driver(t) ==> r.slot == slot && r.placed == [])
  }

  lemma EarlyProper(c: Context, t: Task, slot: Slot, x: Input, placed: bool, late: bool)
    requires Unchecked(t) && Proper(t, slot, placed, late) && (placed ==> slot.crossed)
    ensures StaysProper(t, slot, placed, Region(c, t, slot, x), late)
  {
    hide WellIndexed, RegisterRegion, DecideRegion, SettleRegion, CommitRegion, Region, StaysProper, Proper;
    RegionParts(c, t, slot, x);
    if Registering(t) { RegisterProper(c, t, slot, x, placed, late); }
    else if t.Checking? { CheckingProper(c, t, slot, x, placed, late); }
    else { DecideProper(c, t, slot, x, placed, late); }
  }

  lemma RegisterProper(c: Context, t: Task, slot: Slot, x: Input, placed: bool, late: bool)
    requires Registering(t) && Proper(t, slot, placed, late) && (placed ==> slot.crossed)
    ensures StaysProper(t, slot, placed, RegisterRegion(c, t, slot, x), late)
  {
    hide RecordAttempt, WellIndexed;
  }

  lemma DecideProper(c: Context, t: Task, slot: Slot, x: Input, placed: bool, late: bool)
    requires Unchecked(t) && !Registering(t) && !t.Checking? && Proper(t, slot, placed, late) && (placed ==> slot.crossed)
    ensures StaysProper(t, slot, placed, DecideRegion(c, t, slot, x), late)
  {
    hide RecordAttempt, WellIndexed;
  }

  lemma CheckingProper(c: Context, t: Task, slot: Slot, x: Input, placed: bool, late: bool)
    requires t.Checking? && Proper(t, slot, placed, late) && (placed ==> slot.crossed)
    ensures StaysProper(t, slot, placed, CommitRegion(c, t, slot, x), late)
  {
    hide BoundaryCode, WellIndexed, RecordAttempt, CommitDecision;
    BoundaryPasses(c, slot);
  }

  lemma LateProper(c: Context, t: Task, slot: Slot, x: Input, placed: bool, late: bool)
    requires (InBoundary(t) && !t.Checking?) || Settling(t)
    requires Proper(t, slot, placed, late) && (placed ==> slot.crossed)
    ensures StaysProper(t, slot, placed, Region(c, t, slot, x), late)
  {
    hide RecordAttempt, CommitDecision, WellIndexed, RegisterRegion, DecideRegion, StateForFailure, BoundaryCode;
    if t.Appending? {
      FailedDecisionPlacesNothing(c, slot, t.decision, x.clock);
    }
  }

  lemma RegionProper(c: Context, t: Task, slot: Slot, x: Input, placed: bool, late: bool)
    requires OnSlot(t) && !t.Prepared? && Proper(t, slot, placed, late) && (placed ==> slot.crossed)
    ensures StaysProper(t, slot, placed, Region(c, t, slot, x), late)
  {
    hide Region, StaysProper, Proper;
    if Unchecked(t) { EarlyProper(c, t, slot, x, placed, late); } else { LateProper(c, t, slot, x, placed, late); }
  }

  /** A slot has evolved in place, as its other threads see it. */
  predicate Aged(a: Slot, b: Slot, late: bool) {
    && (a.terminal ==> b.terminal && b.state == a.state)
    && (!b.terminal ==> b.crossed == a.crossed)
    && (b.terminal && !a.terminal ==> !a.crossed || !Settled(b, late))
  }

  lemma AgedProper(t: Task, a: Slot, placed: bool, b: Slot, placed': bool, late: bool)
    requires Proper(t, a, placed, late) && Aged(a, b, late) && (!b.terminal ==> placed' == placed)
    requires BeforeAppend(t) ==> a.crossed
    ensures Proper(t, b, placed', late)
  {
  }

  lemma DriverOnSlot()
    ensures forall t: Task :: Driver(t) ==> OnSlot(t)
    ensures forall t: Task :: Unchecked(t) ==> Driver(t) && !t.Noting? && !t.Releasing? && !BeforeAppend(t) && !t.Failing?
    ensures forall t: Task :: BeforeAppend(t) || t.Failing? || t.Noting? || t.Releasing? ==> Driver(t)
  {
  }

  lemma BystanderProper(t: Task, slot: Slot, placed: bool, late: bool)
    requires !Driver(t)
    ensures Proper(t, slot, placed, late)
  {
  }

  // ---- one step --------------------------------------------------------------------------------------------------------

  lemma TurnProper(s: State, t: nat, k: Task, i: nat, slot: Slot, r: Turn, late: bool)
    requires Tidy(s, late) && Works(s, t, k, i, slot) && StaysProper(k, slot, HasPlacement(s, i), r, late)
    requires Evolves(slot, r.slot) && (r.task.Done? || SlotOf(r.task) == i) && Indexed(Install(s, t, i, r))
    ensures AllProper(Install(s, t, i, r), late)
  {
    hide Driver, HasPlacement, Proper, Steered, WellIndexed, Placings;
    var s' := Install(s, t, i, r);
    forall u | 0 <= u < |s'.tasks| && OnSlot(s'.tasks[u])
      ensures Proper(s'.tasks[u], s'.slots[s'.tasks[u].slot], HasPlacement(s', s'.tasks[u].slot), late)
    {
      var q := s'.tasks[u];
      assert q in s'.tasks;
      MorePlacings(s, s', i, r.placed, q.slot);
      if u != t {
        assert q in s.tasks;
        if q.slot == i { BesideProper(s, t, u, k, q, i, slot, r, HasPlacement(s', i), late); }
      }
    }
  }

  /** Another thread of the slot whose region has run. */
  lemma BesideProper(s: State, t: nat, u: nat, k: Task, q: Task, i: nat, slot: Slot, r: Turn, placed': bool, late: bool)
    requires Single(s) && Works(s, t, k, i, slot) && Works(s, u, q, i, slot) && u != t
    requires Proper(q, slot, HasPlacement(s, i), late) && StaysProper(k, slot, HasPlacement(s, i), r, late) && Evolves(slot, r.slot)
    requires placed' <==> HasPlacement(s, i) || r.placed != []
    ensures Proper(q, r.slot, placed', late)
  {
    hide HasPlacement;
    if Driver(q) && Driver(k) {
      if t < u { assert Over(s, SlotOf(s.tasks[t])); } else { assert Over(s, SlotOf(s.tasks[u])); }
    }
  }

  lemma TurnSingle(s: State, t: nat, k: Task, i: nat, slot: Slot, r: Turn)
    requires Single(s) && Works(s, t, k, i, slot) && (Driver(r.task) ==> Driver(k))
    requires Evolves(slot, r.slot) && (r.task.Done? || SlotOf(r.task) == i)
    ensures Single(Install(s, t, i, r))
  {
    hide Driver, WellIndexed;
    DriverOnSlot();
  }

  lemma TurnSteered(s: State, t: nat, k: Task, i: nat, slot: Slot, r: Turn, late: bool)
    requires Steered(s) && Works(s, t, k, i, slot) && StaysProper(k, slot, HasPlacement(s, i), r, late)
    requires Evolves(slot, r.slot) && (r.task.Done? || SlotOf(r.task) == i)
    ensures Steered(Install(s, t, i, r))
  {
    hide Driver, Proper, HasPlacement, WellIndexed;
    DriverOnSlot();
    var s' := Install(s, t, i, r);
    forall j: nat | MidCommit(s', j) ensures Driven(s', j) {
      if j == i && Driver(k) {
        assert s'.tasks[t] in s'.tasks;
      } else {
        assert MidCommit(s, j);
        var q :| q in s.tasks && Driver(q) && SlotOf(q) == j;
        var u :| 0 <= u < |s.tasks| && s.tasks[u] == q;
        assert s'.tasks[u] in s'.tasks;
      }
    }
  }

  lemma TurnTidy(s: State, t: nat, x: Input, k: Task, i: nat, slot: Slot, late: bool)
    requires Safe(s) && Tidy(s, late) && CanGo(s, t) && Works(s, t, k, i, slot) && !k.Prepared?
    requires Safe(Install(s, t, i, Region(ContextOf(s), k, slot, x)))
    ensures Tidy(Install(s, t, i, Region(ContextOf(s), k, slot, x)), late)
  {
    hide Safe, Region, Grows, Install, InForce, Single, Steered, Proper, HasPlacement, WellIndexed, CommitFramed, Advanced;
    var r := Region(ContextOf(s), k, slot, x);
    assert k in s.tasks;
    SafeIndexed(Install(s, t, i, r));
    RegionTurns(s, t, x, k, i, slot);
    TurnedSlot(s, t, k, i, slot, r);
    if HasPlacement(s, i) { PlacedCrossed(s, i); }
    RegionProper(ContextOf(s), k, slot, x, HasPlacement(s, i), late);
    TurnProper(s, t, k, i, slot, r, late);
    TurnSingle(s, t, k, i, slot, r);
    TurnSteered(s, t, k, i, slot, r, late);
  }

  /** Slots changed from outside any region, in place; new ones are clear. */
  predicate SlotsAge(s: State, s': State, late: bool) {
    && s'.placings == s.placings && |s.slots| <= |s'.slots|
    && (forall i :: 0 <= i < |s.slots| ==> Aged(s.slots[i], s'.slots[i], late))
    && (forall i :: |s.slots| <= i < |s'.slots| ==> !MidCommit(s', i))
  }

  /** Thread t of s' is thread t of s, or drives nothing in either. */
  predicate Same(s: State, s': State, t: nat) {
    t < |s'.tasks| &&
    ((t < |s.tasks| && s'.tasks[t] == s.tasks[t]) || (!Driver(s'.tasks[t]) && (t < |s.tasks| ==> !Driver(s.tasks[t]))))
  }

  /** Thread t of s' is a new driver, or one that drove nothing, of a slot that is free and clear. */
  predicate Hired(s: State, s': State, t: nat) {
    && t < |s'.tasks| && (t < |s.tasks| ==> !Driver(s.tasks[t]))
    && Unchecked(s'.tasks[t]) && !MidCommit(s', SlotOf(s'.tasks[t])) && FreeBut(s', SlotOf(s'.tasks[t]), t)
  }

  predicate FreeBut(s: State, i: int, t: nat) {
    Over(s, i) || forall u :: 0 <= u < |s.tasks| && u != t && Driver(s.tasks[u]) ==> SlotOf(s.tasks[u]) != i
  }

  predicate ThreadsKeep(s: State, s': State) {
    |s.tasks| <= |s'.tasks| && forall t :: 0 <= t < |s'.tasks| ==> Same(s, s', t) || Hired(s, s', t)
  }

  lemma AgedTidy(s: State, s': State, late: bool)
    requires Safe(s) && Tidy(s, late) && Safe(s') && SlotsAge(s, s', late) && ThreadsKeep(s, s')
    ensures Tidy(s', late)
  {
    hide Locked, FencedPlacings, Backed, HasPlacement, AuthorityMatches, WellIndexed;
    AgedAllProper(s, s', late);
    AgedSingle(s, s', late);
    AgedSteered(s, s', late);
  }

  lemma AgedAllProper(s: State, s': State, late: bool)
    requires Indexed(s) && Checked(s) && AllProper(s, late) && Indexed(s') && SlotsAge(s, s', late) && ThreadsKeep(s, s')
    ensures AllProper(s', late)
  {
    hide HasPlacement, Proper, Unchecked, AuthorityMatches, Driver, Aged, WellIndexed;
    DriverOnSlot();
    forall t | 0 <= t < |s'.tasks| && OnSlot(s'.tasks[t])
      ensures Proper(s'.tasks[t], s'.slots[s'.tasks[t].slot], HasPlacement(s', s'.tasks[t].slot), late)
    {
      var k := s'.tasks[t];
      assert k in s'.tasks;
      SamePlacement(s, s', k.slot);
      if Same(s, s', t) && Driver(k) {
        assert k in s.tasks;
        AgedProper(k, s.slots[k.slot], HasPlacement(s, k.slot), s'.slots[k.slot], HasPlacement(s', k.slot), late);
      } else if !Driver(k) {
        BystanderProper(k, s'.slots[k.slot], HasPlacement(s', k.slot), late);
      } else {
        assert Hired(s, s', t);
        UncheckedProper(k, s'.slots[k.slot], HasPlacement(s', k.slot), late);
      }
    }
  }

  lemma UncheckedProper(t: Task, slot: Slot, placed: bool, late: bool)
    requires Unchecked(t) && Clear(slot)
    ensures Proper(t, slot, placed, late)
  {
  }

  lemma AgedSingle(s: State, s': State, late: bool)
    requires Indexed(s) && Single(s) && SlotsAge(s, s', late) && ThreadsKeep(s, s')
    ensures Single(s')
  {
    hide Driver, Unchecked, WellIndexed;
    DriverOnSlot();
    forall t, u | 0 <= t < u < |s'.tasks| && Driver(s'.tasks[t]) && Driver(s'.tasks[u]) && SlotOf(s'.tasks[t]) == SlotOf(s'.tasks[u])
      ensures Over(s', SlotOf(s'.tasks[t]))
    {
      assert (Same(s, s', t) || Hired(s, s', t)) && (Same(s, s', u) || Hired(s, s', u));
      if !Hired(s, s', t) && !Hired(s, s', u) { assert Over(s, SlotOf(s.tasks[t])); }
    }
  }

  lemma AgedSteered(s: State, s': State, late: bool)
    requires Indexed(s) && Steered(s) && SlotsAge(s, s', late) && ThreadsKeep(s, s')
    ensures Steered(s')
  {
    hide Driver, Unchecked, WellIndexed;
    DriverOnSlot();
    forall i: nat | MidCommit(s', i) ensures Driven(s', i) {
      assert MidCommit(s, i);
      var q :| q in s.tasks && Driver(q) && SlotOf(q) == i;
      var t :| 0 <= t < |s.tasks| && s.tasks[t] == q;
      assert Same(s, s', t) || Hired(s, s', t);
      assert s'.tasks[t] in s'.tasks;
    }
  }

  lemma RegisterTidy(s: State, a: Ask, queued: bool, late: bool)
    requires Safe(s) && TableListed(s) && Tidy(s, late) && Safe(DoRegister(s, a, queued))
    ensures Tidy(DoRegister(s, a, queued), late)
  {
    hide DoRegister, Safe, Tidy, TableListed, Driver, WellIndexed, Unchecked;
    SafeIndexed(s);
    var s' := DoRegister(s, a, queued);
    if Admissible(s, a, queued) {
      RegisterReaps(s, a, queued);
      StartingUnchecked(|s.slots|, queued);
      forall u | 0 <= u < |s.tasks| ensures SlotOf(s.tasks[u]) < |s.slots| {
        assert s.tasks[u] in s.tasks;
      }
      assert Hired(s, s', |s.tasks|);
      AgedTidy(s, s', late);
    } else {
      NotAdmitted(s, a, queued);
    }
  }

  lemma StartingUnchecked(i: nat, queued: bool)
    ensures Unchecked(Starting(i, queued))
  {
  }

  /** A thread, new or one that drove nothing, starts to drive a slot that is free. */
  lemma DriverJoins(s: State, s': State, t: nat, k: Task, late: bool)
    requires Safe(s) && Tidy(s, late) && Safe(s') && SlotsAge(s, s', late)
    requires Moves(s, s', t, k) && (t < |s.tasks| ==> !Driver(s.tasks[t])) && Unchecked(k)
    requires Free(s, SlotOf(k)) && (MidCommit(s', SlotOf(k)) ==> MidCommit(s, SlotOf(k)))
    ensures Tidy(s', late)
  {
    hide Safe, AllProper, Single, Driver, Unchecked, WellIndexed;
    DriverOnSlot();
    forall u | 0 <= u < |s'.tasks| ensures Same(s, s', u) || Hired(s, s', u) {
      if u == t {
        assert MidCommit(s, SlotOf(k)) ==> Driven(s, SlotOf(k));
        assert forall v :: 0 <= v < |s.tasks| ==> s.tasks[v] in s.tasks;
      }
    }
    AgedTidy(s, s', late);
  }

  lemma PopTidy(s: State, late: bool)
    requires Safe(s) && Tidy(s, late) && CanPop(s) && Orderly(s, Pop, late) && Safe(DoPop(s))
    ensures Tidy(DoPop(s), late)
  {
    hide Safe, AllProper, Single, Steered, Free, Driver, Unchecked, WellIndexed, Completed;
    var s' := DoPop(s);
    if s'.tasks != s.tasks {
      DecidingUnchecked();
      DriverJoins(s, s', |s.tasks|, Deciding(s.table[s.queue[0]], true), late);
    } else {
      AgedTidy(s, s', late);
    }
  }

  lemma DecidingUnchecked()
    ensures forall i: nat, w: bool :: Unchecked(Deciding(i, w))
    ensures forall i: nat, d: Decision :: Unchecked(Redeeming(i, d))
  {
  }

  lemma RedeemTidy(s: State, t: nat, i: nat, d: Decision, late: bool)
    requires Safe(s) && Tidy(s, late) && t < |s.tasks| && s.tasks[t] == Prepared(i, d) && Safe(Redeem(s, t, i, d))
    requires Target(s, t).Some? ==> Free(s, Target(s, t).value)
    ensures Tidy(Redeem(s, t, i, d), late)
  {
    hide Safe, AllProper, Single, Steered, Free, Unchecked, WellIndexed;
    var s' := Redeem(s, t, i, d);
    SafeIndexed(s);
    assert s.tasks[t] in s.tasks;
    if Target(s, t).Some? {
      DecidingUnchecked();
      DriverJoins(s, s', t, Redeeming(Target(s, t).value, d), late);
    } else {
      AgedTidy(s, s', late);
    }
  }

  lemma ThreadTidy(s: State, t: nat, x: Input, late: bool)
    requires Safe(s) && Tidy(s, late) && CanGo(s, t) && Orderly(s, Go(t, x), late) && Safe(DoGo(s, t, x))
    ensures Tidy(DoGo(s, t, x), late)
  {
    hide Safe, Tidy, Region, RecordAttempt, Install, Redeem, WellIndexed, Free, Target;
    SafeIndexed(s);
    var k := s.tasks[t];
    assert k in s.tasks;
    if k.ShutdownNoting? {
      AgedTidy(s, DoGo(s, t, x), late);
    } else if k.Prepared? {
      RedeemTidy(s, t, k.slot, k.decision, late);
    } else {
      TurnTidy(s, t, x, k, k.slot, s.slots[k.slot], late);
    }
  }

  lemma NoneWaiting(s: State, a: Action, i: nat, late: bool)
    requires a.Shutdown? && Orderly(s, a, late) && s.run == Up && MidCommit(s, i)
    ensures !Waiting(s, s.queue, i)
  {
  }

  lemma ShutdownTidy(s: State, cancelActive: bool, late: bool)
    requires Safe(s) && Tidy(s, late) && s.run == Up && Orderly(s, Shutdown(cancelActive), late) && Safe(DoShutdown(s, cancelActive))
    ensures Tidy(DoShutdown(s, cancelActive), late)
  {
    hide Safe, Tidy, DoShutdown, Waiting, WellIndexed, Driver;
    SafeIndexed(s);
    var s' := DoShutdown(s, cancelActive);
    var journal := ShutdownHalts(s, cancelActive);
    forall i | 0 <= i < |s.slots| && s.slots[i].crossed && !s.slots[i].terminal ensures !s'.slots[i].terminal {
      assert MidCommit(s, i);
      NoneWaiting(s, Shutdown(cancelActive), i, late);
      ShutdownEndsCrossed(s, cancelActive, i);
    }
    assert !Driver(ShutdownNoting(journal)) by { NotingDrives(journal); }
    AgedTidy(s, s', late);
  }

  lemma NotingDrives(journal: seq<u64>)
    ensures !Driver(ShutdownNoting(journal))
  {
  }

  /** A step that moves no thread of an attempt. */
  lemma QuietTidy(s: State, a: Action, late: bool)
    requires Safe(s) && Tidy(s, late) && Orderly(s, a, late) && Safe(Do(s, a)) && Enabled(s, a)
    requires !a.Register? && !a.Go? && !a.Pop? && !a.Shutdown?
    ensures Tidy(Do(s, a), late)
  {
    hide Safe, Tidy, DoRegister, DoGo, DoPop, DoShutdown, WellIndexed, Free, Waiting, Completed;
    SafeIndexed(s);
    AgedTidy(s, Do(s, a), late);
  }

  /** An orderly step keeps every thread in step with its slot. */
  lemma StepTidy(s: State, a: Action, late: bool)
    requires Safe(s) && TableListed(s) && Tidy(s, late) && Orderly(s, a, late)
    ensures Tidy(Do(s, a), late)
  {
    hide Safe, Tidy, DoRegister, DoGo, DoPop, DoShutdown, DoCancel, DoAwait, TableListed, WellIndexed, Free, Waiting, Completed;
    StepKeeps(s, a);
    SafeIndexed(s);
    if Enabled(s, a) {
      match a {
        case Register(ask, queued) => RegisterTidy(s, ask, queued, late);
        case Go(t, x) => ThreadTidy(s, t, x, late);
        case Pop => PopTidy(s, late);
        case Shutdown(cancelActive) =>
          if s.run == Up { ShutdownTidy(s, cancelActive, late); } else { NotUp(s, cancelActive); }
        case _ => QuietTidy(s, a, late);
      }
    }
  }

  // ---- orderly runs ------------------------------------------------------------------------------------------------------

  /** Every step of the run is in order. */
  predicate OrderlyRun(s: State, actions: seq<Action>, late: bool)
    decreases |actions|
  {
    hide *;
    actions == [] || (Orderly(s, actions[0], late) && OrderlyRun(Do(s, actions[0]), actions[1..], late))
  }

  /** In order, a step brings about nothing but a commit, or the failure of one that Await did not wait for. */
  lemma OrderlyBringsNothing(s: State, a: Action, i: nat, st: AttemptState, late: bool)
    requires Safe(s) && Tidy(s, late) && Orderly(s, a, late) && BringsAbout(s, a, i, st)
    ensures st == IsCommitted || (late && st == IsFailed)
  {
    hide Safe, Single, Steered, HasPlacement, CommitDecision, StateForFailure, WellIndexed, Waiting, Free;
    if a.Go? { assert s.tasks[a.thread] in s.tasks; }
    if !s.slots[i].terminal {
      PlacedCrossed(s, i);
      if a.Shutdown? && s.run == Up { NoneWaiting(s, a, i, late); }
    }
  }

  lemma {:induction false} OrderlyRunCommits(s: State, actions: seq<Action>, s': State, i: nat, st: AttemptState, late: bool)
    requires Safe(s) && TableListed(s) && Tidy(s, late) && Runs(s, actions, s') && OrderlyRun(s, actions, late)
    requires st != IsCommitted && !(late && st == IsFailed)
    ensures !ComesAbout(s, actions, i, st)
    decreases |actions|
  {
    hide Safe, TableListed, Tidy, Do, Enabled, Orderly, BringsAbout;
    if actions != [] {
      StepKeeps(s, actions[0]);
      StepTidy(s, actions[0], late);
      if BringsAbout(s, actions[0], i, st) { OrderlyBringsNothing(s, actions[0], i, st, late); }
      OrderlyRunCommits(Do(s, actions[0]), actions[1..], s', i, st, late);
    }
  }

  lemma StartTidy(limit: nat, capacity: nat, workers: nat, epoch: u64, incarnation: u64, b: Backend, late: bool)
    ensures Tidy(Start(limit, capacity, workers, epoch, incarnation, b), late)
  {
  }

  /**
   In every orderly run, an attempt that has ended and has a placement is reported as committed; where Await
   may be late, as failed at worst.
   */
  lemma PlacedEndsCommitted(limit: nat, capacity: nat, workers: nat, epoch: u64, incarnation: u64, b: Backend,
                            actions: seq<Action>, s: State, i: nat, st: AttemptState, late: bool)
    requires Runs(Start(limit, capacity, workers, epoch, incarnation, b), actions, s)
    requires OrderlyRun(Start(limit, capacity, workers, epoch, incarnation, b), actions, late)
    requires PlacedAs(s, i, st)
    ensures st == IsCommitted || (late && st == IsFailed)
  {
    hide Runs, OrderlyRun, Safe, TableListed, Tidy, ComesAbout, PlacedAs;
    StartSafe(limit, capacity, workers, epoch, incarnation, b);
    StartTidy(limit, capacity, workers, epoch, incarnation, b, late);
    PlacedAsExactly(limit, capacity, workers, epoch, incarnation, b, actions, s, i, st);
    if st != IsCommitted && !(late && st == IsFailed) {
      OrderlyRunCommits(Start(limit, capacity, workers, epoch, incarnation, b), actions, s, i, st, late);
    }
  }

  // ---- runs without reused ids -------------------------------------------------------------------------------------------

  /** When no id is used twice and nothing is committed twice, only an Await after the stop is out of order. */
  lemma FreshIsOrderly(s: State, a: Action, late: bool)
    requires Owned(s) && Tidy(s, late) && Fresh(s, a) && (late || Timely(s, a))
    ensures Orderly(s, a, late)
  {
    hide Known, AllProper, WellIndexed;
    if a.Go? && Target(s, a.thread).Some? { TargetFree(s, a.thread); }
    if a.Pop? && CanPop(s) { QueuedFree(s, s.queue[0]); }
    if a.Shutdown? && s.run == Up {
      forall i: nat | Waiting(s, s.queue, i) ensures !MidCommit(s, i) {
        var id :| id in s.queue && Names(s, id, i);
        QueuedFree(s, id);
        assert Free(s, i);
      }
    }
  }

  /** What waits in the queue is driven by nobody. */
  lemma QueuedFree(s: State, id: u64)
    requires Owned(s) && id in s.queue
    ensures forall i: nat :: Names(s, id, i) ==> !Driven(s, i) && Free(s, i)
  {
    hide Known;
    forall t, i: nat | t in s.tasks && Names(s, id, i) && SlotOf(t) == i ensures !Driver(t) {
    }
  }

  lemma TargetFree(s: State, t: nat)
    requires Owned(s) && Target(s, t).Some?
    ensures Free(s, Target(s, t).value)
  {
    hide Known;
    assert s.tasks[t] in s.tasks;
    forall k | k in s.tasks && Driver(k) ensures SlotOf(k) != Target(s, t).value {
      var u :| 0 <= u < |s.tasks| && s.tasks[u] == k;
      if u < t { assert Owner(s.tasks[u]) && Owner(s.tasks[t]); } else { assert Owner(s.tasks[t]) && Owner(s.tasks[u]); }
    }
  }

  /** No id is admitted again after its slot was reaped, nothing is committed twice, and Await is timely if it must. */
  predicate FreshRun(s: State, actions: seq<Action>, late: bool)
    decreases |actions|
  {
    hide *;
    actions == [] ||
    (Fresh(s, actions[0]) && (late || Timely(s, actions[0])) && FreshRun(Do(s, actions[0]), actions[1..], late))
  }

  lemma {:induction false} FreshRunIsOrderly(s: State, actions: seq<Action>, late: bool)
    requires Safe(s) && TableListed(s) && Owned(s) && Tidy(s, late) && FreshRun(s, actions, late)
    ensures OrderlyRun(s, actions, late)
    decreases |actions|
  {
    hide Safe, TableListed, Owned, Tidy, Do, Fresh, Timely, Orderly;
    if actions != [] {
      StepKeeps(s, actions[0]);
      StepOwned(s, actions[0]);
      FreshIsOrderly(s, actions[0], late);
      StepTidy(s, actions[0], late);
      FreshRunIsOrderly(Do(s, actions[0]), actions[1..], late);
    }
  }

  /**
   When no id is used twice and nothing is committed twice, an attempt that has ended and has a placement is
   reported as committed, unless Await met its commit in flight after the stop: then it may be reported as
   failed, but never as cancelled, fenced or rejected.
   */
  lemma FreshEndsCommitted(limit: nat, capacity: nat, workers: nat, epoch: u64, incarnation: u64, b: Backend,
                           actions: seq<Action>, s: State, i: nat, st: AttemptState, late: bool)
    requires Runs(Start(limit, capacity, workers, epoch, incarnation, b), actions, s)
    requires FreshRun(Start(limit, capacity, workers, epoch, incarnation, b), actions, late)
    requires PlacedAs(s, i, st)
    ensures st == IsCommitted || (late && st == IsFailed)
  {
    hide Runs, OrderlyRun, FreshRun, Safe, TableListed, Tidy, Owned, PlacedAs;
    StartSafe(limit, capacity, workers, epoch, incarnation, b);
    StartOwned(limit, capacity, workers, epoch, incarnation, b);
    StartTidy(limit, capacity, workers, epoch, incarnation, b, late);
    FreshRunIsOrderly(Start(limit, capacity, workers, epoch, incarnation, b), actions, late);
    PlacedEndsCommitted(limit, capacity, workers, epoch, incarnation, b, actions, s, i, st, late);
  }
}
