/** Safety over every run of the coordinator, in any interleaving of its threads. */
module CoordinatorGuarantees {
  import opened Bytes
  import opened Records
  import opened Recovery
  import opened StoreOps
  import opened Reaping
  import opened Coordinator
  import opened CoordinatorBackend
  import opened CoordinatorSafety
  import Ordered

  lemma {:induction false} RunKeeps(s: State, actions: seq<Action>, s': State)
    requires Safe(s) && TableListed(s) && Runs(s, actions, s')
    ensures Safe(s') && TableListed(s')
    decreases |actions|
  {
    hide Safe, TableListed, Do, Enabled;
    if actions != [] {
      StepKeeps(s, actions[0]);
      RunKeeps(Do(s, actions[0]), actions[1..], s');
    }
  }

  /** The placement carries the epoch then current, and its request matches the view of authority then in force. */
  predicate Fenced(s: State, p: Placing) {
    && p.slot < |s.slots|
    && p.record.commitEpoch == p.epoch == s.slots[p.slot].ask.expected.epoch
    && AuthorityMatches(p.authority, s.slots[p.slot].ask.expected)
  }

  predicate EpochsRise(ps: seq<Placing>) {
    forall i, j :: 0 <= i < j < |ps| ==> ps[i].record.commitEpoch <= ps[j].record.commitEpoch
  }

  /**
   In every interleaving, every placement was made under the epoch current at that moment, stamped with
   it, and under a view of authority its request matches; and placements never go back an epoch.
   */
  lemma PlacementsAreFenced(s: State, actions: seq<Action>, s': State)
    requires Safe(s) && TableListed(s) && Runs(s, actions, s')
    ensures (forall p <- s'.placings :: Fenced(s', p)) && EpochsRise(s'.placings)
  {
    hide Runs, AuthorityMatches, Indexed, Locked, Checked, Backed;
    RunKeeps(s, actions, s');
    assert forall i :: 0 <= i < |s'.placings| ==> s'.placings[i] in s'.placings;
  }

  /** Slot i ended in this state, with this code. */
  predicate EndedAs(s: State, i: nat, st: AttemptState) {
    i < |s.slots| && s.slots[i].terminal && s.slots[i].state == st
  }

  /** The backend holds the record that slot i names. */
  predicate RecordHeld(s: State, i: nat) {
    i < |s.slots| && HasRecord(s.backend, s.slots[i])
  }

  /** A slot reported as committed names a record the backend holds. */
  lemma CommittedIsBacked(s: State, actions: seq<Action>, s': State, i: nat)
    requires Safe(s) && TableListed(s) && Runs(s, actions, s') && EndedAs(s', i, IsCommitted)
    ensures RecordHeld(s', i)
  {
    hide Runs, RecordsOf, Indexed, Locked, Checked, FencedPlacings, HasRecord;
    RunKeeps(s, actions, s');
    assert s'.slots[i] in s'.slots;
  }

  // ---- slots only evolve -----------------------------------------------------------------------------

  /** Every slot of s is still there in s', evolved; and placements only accumulate. */
  predicate SlotsEvolve(s: State, s': State) {
    && |s.slots| <= |s'.slots|
    && (forall i :: 0 <= i < |s.slots| ==> Evolves(s.slots[i], s'.slots[i]))
    && s.placings <= s'.placings
  }

  lemma EvolveOn(s: State, s1: State, s2: State)
    requires SlotsEvolve(s, s1) && SlotsEvolve(s1, s2)
    ensures SlotsEvolve(s, s2)
  {
  }

  /** Slots, in place, some of which have been ended as cancelled. */
  predicate Halted(a: seq<Slot>, b: seq<Slot>) {
    |a| == |b| && forall i :: 0 <= i < |a| ==>
      && Evolves(a[i], b[i]) && b[i].crossed == a[i].crossed
      && (b[i].terminal && !a[i].terminal ==> b[i].state == IsCancelled)
  }

  /** Nothing but slots and their counts has changed. */
  predicate SlotsOnly(s: State, s': State) {
    s' == s.(slots := s'.slots, stats := s'.stats)
  }

  lemma EndOneHalts(e: Ended, a: u64, queued: bool, cancelActive: bool)
    ensures var s' := EndOne(e, a, queued, cancelActive).state; SlotsOnly(e.state, s') && Halted(e.state.slots, s'.slots)
  {
    hide WellIndexed, Completed;
  }

  lemma {:induction false} EndAllHalts(e: Ended, ids: seq<u64>, queued: bool, cancelActive: bool)
    ensures var s' := EndAll(e, ids, queued, cancelActive).state; SlotsOnly(e.state, s') && Halted(e.state.slots, s'.slots)
    decreases |ids|
  {
    hide EndOne;
    if ids != [] {
      EndOneHalts(e, ids[0], queued, cancelActive);
      EndAllHalts(EndOne(e, ids[0], queued, cancelActive), ids[1..], queued, cancelActive);
    }
  }

  /** What Shutdown leaves: some slots ended, the queue empty, and a thread that journals for those it ended. */
  predicate ShutDown(s: State, s': State, journal: seq<u64>) {
    && Halted(s.slots, s'.slots)
    && s' == s.(run := ShuttingDown, slots := s'.slots, stats := s'.stats, queue := [], queueDepth := 0,
                tasks := s.tasks + [ShutdownNoting(journal)])
  }

  lemma ShutdownHalts(s: State, cancelActive: bool) returns (journal: seq<u64>)
    requires s.run == Up && Indexed(s)
    ensures ShutDown(s, DoShutdown(s, cancelActive), journal)
  {
    hide EndAll, Indexed, WellIndexed;
    var s0 := s.(run := ShuttingDown);
    EndAllHalts(Ended(s0, []), s.queue, true, cancelActive);
    var first := EndAll(Ended(s0, []), s.queue, true, cancelActive);
    var emptied := Ended(first.state.(queue := [], queueDepth := 0), first.journal);
    EndAllHalts(emptied, Ordered.Ascending(s.table.Keys), false, cancelActive);
    journal := EndAll(emptied, Ordered.Ascending(s.table.Keys), false, cancelActive).journal;
  }

  lemma SameEvolves(s: State, s': State)
    requires s'.slots == s.slots && s'.placings == s.placings
    ensures SlotsEvolve(s, s')
  {
  }

  lemma TurnedSlot(s: State, t: nat, k: Task, i: nat, slot: Slot, r: Turn)
    requires Turned(s, t, k, i, slot, r)
    ensures Evolves(slot, r.slot)
  {
    hide WellIndexed, Grows, InForce;
  }

  lemma TurnEvolves(s: State, t: nat, k: Task, i: nat, slot: Slot, r: Turn)
    requires Turned(s, t, k, i, slot, r)
    ensures SlotsEvolve(s, Install(s, t, i, r))
  {
    hide InForce, Grows, WellIndexed;
  }

  lemma GoEvolves(s: State, t: nat, x: Input)
    requires Safe(s) && CanGo(s, t)
    ensures SlotsEvolve(s, DoGo(s, t, x))
  {
    hide Safe, Region, Install, RecordAttempt, Turned, WellIndexed, SlotsEvolve;
    SafeIndexed(s);
    var k := s.tasks[t];
    assert k in s.tasks;
    if OnSlot(k) && !k.Prepared? {
      RegionTurns(s, t, x, k, k.slot, s.slots[k.slot]);
      TurnEvolves(s, t, k, k.slot, s.slots[k.slot], Region(ContextOf(s), k, s.slots[k.slot], x));
    } else {
      SameEvolves(s, DoGo(s, t, x));
    }
  }

  lemma StepEvolves(s: State, a: Action)
    requires Safe(s)
    ensures SlotsEvolve(s, Do(s, a))
  {
    hide Safe, DoShutdown, Reap, DoGo, WellIndexed, InFlight;
    SameEvolves(s, s);
    SafeIndexed(s);
    if Enabled(s, a) {
      if a.Shutdown? {
        if s.run == Up { var journal := ShutdownHalts(s, a.cancelActive); } else { NotUp(s, a.cancelActive); }
      }
      if a.Go? { GoEvolves(s, a.thread, a.input); }
    }
  }

  lemma NotUp(s: State, cancelActive: bool)
    requires s.run != Up
    ensures DoShutdown(s, cancelActive) == s
  {
    hide EndAll;
  }

  lemma {:induction false} RunEvolves(s: State, actions: seq<Action>, s': State)
    requires Safe(s) && TableListed(s) && Runs(s, actions, s')
    ensures SlotsEvolve(s, s')
    decreases |actions|
  {
    hide Safe, TableListed, Do, Enabled, SlotsEvolve;
    SameEvolves(s, s);
    if actions != [] {
      var s1 := Do(s, actions[0]);
      StepKeeps(s, actions[0]);
      StepEvolves(s, actions[0]);
      RunEvolves(s1, actions[1..], s');
      EvolveOn(s, s1, s');
    }
  }

  /** Slot i has ended with this state and code. */
  predicate Outcome(s: State, i: nat, st: AttemptState, code: StatusCode) {
    EndedAs(s, i, st) && s.slots[i].code == code
  }

  /** The outcome of an attempt, once reached, never changes. */
  lemma OutcomesAreFinal(s: State, actions: seq<Action>, s': State, i: nat, st: AttemptState, code: StatusCode)
    requires Safe(s) && TableListed(s) && Runs(s, actions, s') && Outcome(s, i, st, code)
    ensures Outcome(s', i, st, code)
  {
    hide Runs, Safe, TableListed;
    RunEvolves(s, actions, s');
  }

  /** The attempt has slot i. */
  predicate Names(s: State, attempt: u64, i: nat) {
    attempt in s.table && s.table[attempt] == i
  }

  /** Slot i has a placement. */
  predicate HasPlacement(s: State, i: nat) {
    exists p <- s.placings :: p.slot == i
  }

  /** Once Cancel has answered Ok, nothing that happens afterwards places or commits the attempt it named. */
  lemma CancelledNeverCommits(s: State, attempt: u64, i: nat, actions: seq<Action>, s': State)
    requires Safe(s) && TableListed(s) && Cancellable(s, attempt) && Names(s, attempt, i)
    requires Runs(DoCancel(s, attempt), actions, s')
    ensures !HasPlacement(s', i) && !EndedAs(s', i, IsCommitted)
  {
    hide Runs, TableListed, Locked, Checked, HasRecord, AuthorityMatches, RecordsOf, WellIndexed;
    var s1 := DoCancel(s, attempt);
    CancelKeeps(s, attempt);
    SafeIndexed(s);
    assert TableListed(s1) by { ListedSame(s, s1); }
    assert s1.slots[i].cancelRequested && !s1.slots[i].crossed;
    RunEvolves(s1, actions, s');
    RunKeeps(s1, actions, s');
    assert s'.slots[i] in s'.slots;
  }

  lemma ListedSame(s: State, s': State)
    requires TableListed(s) && SameTable(s, s')
    ensures TableListed(s')
  {
  }
}
