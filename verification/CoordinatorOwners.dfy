/** When no attempt id is used twice and nothing is committed twice, one thread drives an attempt. */
module CoordinatorOwners {
  import opened Bytes
  import opened Records
  import opened Recovery
  import opened StoreOps
  import opened Reaping
  import opened Coordinator
  import opened CoordinatorBackend
  import opened CoordinatorSafety
  import opened CoordinatorGuarantees
  import Ordered

  predicate Known(s: State, attempt: u64) {
    exists slot <- s.slots :: slot.ask.attempt == attempt
  }

  /** An id is not admitted again once its slot has been reaped, and what Prepare answered is committed once. */
  predicate Fresh(s: State, a: Action) {
    && (a.Register? && a.ask.attempt !in s.table ==> !Known(s, a.ask.attempt))
    && !a.Copy?
  }

  /** The thread drives its attempt: everyone but those who journal for Cancel and Shutdown. */
  predicate Owner(t: Task) {
    OnSlot(t) && !t.CancelNoting?
  }

  // ---- invariants -----------------------------------------------------------------------------------

  /** Slots have their own attempt ids, and the table names them by it. */
  predicate Distinct(s: State) {
    && Indexed(s)
    && (forall i, j :: 0 <= i < j < |s.slots| ==> s.slots[i].ask.attempt != s.slots[j].ask.attempt)
    && (forall a <- s.table :: s.slots[s.table[a]].ask.attempt == a)
  }

  /** An attempt is driven by one thread or waits in the queue once. */
  predicate Sole(s: State) {
    && Indexed(s)
    && (forall t, u :: 0 <= t < u < |s.tasks| && Owner(s.tasks[t]) && Owner(s.tasks[u]) ==> SlotOf(s.tasks[t]) != SlotOf(s.tasks[u]))
    && (forall t <- s.tasks | Owner(t) :: s.slots[t.slot].ask.attempt !in s.queue)
    && (forall i, j :: 0 <= i < j < |s.queue| ==> s.queue[i] != s.queue[j])
    && (forall a <- s.queue :: Known(s, a))
  }

  predicate Owned(s: State) {
    Indexed(s) && Distinct(s) && Sole(s)
  }

  // ---- one step -------------------------------------------------------------------------------------

  /** Every attempt keeps its slot, its id and its driver; the queue has not grown. */
  predicate Carries(s: State, s': State) {
    && |s'.slots| == |s.slots| && (forall i :: 0 <= i < |s.slots| ==> s'.slots[i].ask == s.slots[i].ask)
    && s'.table == s.table
    && (s'.queue == s.queue || s'.queue == [] || (s.queue != [] && s'.queue == s.queue[1..]))
    && (forall t :: 0 <= t < |s'.tasks| && Owner(s'.tasks[t]) ==>
          t < |s.tasks| && Owner(s.tasks[t]) && SlotOf(s'.tasks[t]) == SlotOf(s.tasks[t]))
  }

  lemma SameKnown(s: State, s': State)
    requires |s.slots| <= |s'.slots| && forall i :: 0 <= i < |s.slots| ==> s'.slots[i].ask == s.slots[i].ask
    ensures forall a: u64 :: Known(s, a) ==> Known(s', a)
  {
    forall a: u64 | Known(s, a) ensures Known(s', a) {
      var slot :| slot in s.slots && slot.ask.attempt == a;
      var i :| 0 <= i < |s.slots| && s.slots[i] == slot;
      assert s'.slots[i] in s'.slots;
    }
  }

  lemma CarriesOwned(s: State, s': State)
    requires Owned(s) && Carries(s, s') && Indexed(s')
    ensures Owned(s')
  {
    hide Owner, Known;
    OwnerOnSlot();
    SameKnown(s, s');
    assert forall a :: a in s'.queue ==> a in s.queue;
    forall k | k in s'.tasks && Owner(k) ensures s'.slots[k.slot].ask.attempt !in s'.queue {
      var t :| 0 <= t < |s'.tasks| && s'.tasks[t] == k;
      assert s.tasks[t] in s.tasks;
    }
  }

  lemma OwnerOnSlot()
    ensures forall t: Task :: Owner(t) ==> OnSlot(t)
  {
  }

  lemma TurnOwned(s: State, t: nat, k: Task, i: nat, slot: Slot, r: Turn)
    requires Owned(s) && Turned(s, t, k, i, slot, r) && !k.Prepared? && Indexed(Install(s, t, i, r))
    ensures Owned(Install(s, t, i, r))
  {
    hide WellIndexed, InForce, Grows, Known, CommitFramed, Registering;
    var s' := Install(s, t, i, r);
    assert r.slot.ask == slot.ask by { TurnedSlot(s, t, k, i, slot, r); }
    assert k in s.tasks && slot in s.slots;
    SameKnown(s, s');
    assert Known(s, slot.ask.attempt) by { KnownSlot(s, slot); }
    forall u | 0 <= u < |s'.tasks| && Owner(s'.tasks[u]) ensures s'.slots[s'.tasks[u].slot].ask.attempt !in s'.queue {
      if u != t {
        assert s.tasks[u] in s.tasks;
        assert r.enqueued ==> SlotOf(s.tasks[u]) != i;
      }
    }
  }

  lemma KnownSlot(s: State, slot: Slot)
    requires slot in s.slots
    ensures Known(s, slot.ask.attempt)
  {
  }

  lemma RegisterOwned(s: State, a: Ask, queued: bool)
    requires Owned(s) && TableListed(s) && Fresh(s, Register(a, queued))
    ensures Owned(DoRegister(s, a, queued))
  {
    hide DoRegister, TableListed, Owned, WellIndexed;
    if Admissible(s, a, queued) {
      RegisterReaps(s, a, queued);
      JoinsOwned(s, DoRegister(s, a, queued), a, queued);
    } else {
      NotAdmitted(s, a, queued);
    }
  }

  lemma JoinsOwned(s: State, s': State, a: Ask, queued: bool)
    requires Owned(s) && Registers(s, s', a, queued) && !Known(s, a.attempt)
    ensures Owned(s')
  {
    hide TableListed, Known, WellIndexed, Owner;
    OwnerOnSlot();
    SameKnown(s, s');
    assert forall k :: k in s'.tasks ==> k in s.tasks || k == Starting(|s.slots|, queued);
    forall i | 0 <= i < |s.slots| ensures s.slots[i].ask.attempt != a.attempt && s'.slots[i] == s.slots[i] {
      KnownSlot(s, s.slots[i]);
    }
    assert forall t :: 0 <= t < |s.tasks| ==> s.tasks[t] in s.tasks;
  }

  /** A worker takes the attempt at the front of the queue: nobody else drives it. */
  lemma HireOwned(s: State, s1: State, s': State, i: nat)
    requires Owned(s) && Owned(s1) && Carries(s, s1) && s1.tasks == s.tasks && s.queue != [] && s1.queue == s.queue[1..]
    requires Names(s, s.queue[0], i) && s' == s1.(tasks := s1.tasks + [Deciding(i, true)])
    ensures Owned(s')
  {
    hide Owner, Known;
    OwnerOnSlot();
    SameKnown(s1, s');
    var a := s.queue[0];
    assert a in s.queue && a !in s1.queue;
    assert forall k :: k in s'.tasks ==> k in s1.tasks || k == Deciding(i, true);
    forall t | 0 <= t < |s.tasks| && Owner(s.tasks[t]) ensures SlotOf(s.tasks[t]) != i {
      assert s.tasks[t] in s.tasks;
    }
  }

  lemma PopOwned(s: State)
    requires Owned(s) && Safe(s) && CanPop(s)
    ensures Owned(DoPop(s))
  {
    hide Owned, Safe, WellIndexed, Owner;
    PopKeeps(s);
    SafeIndexed(s);
    SafeIndexed(DoPop(s));
    var s' := DoPop(s);
    var s1 := s'.(tasks := s.tasks);
    OwnedIndexed(s, s1);
    CarriesOwned(s, s1);
    if s'.tasks != s.tasks { HireOwned(s, s1, s', s.table[s.queue[0]]); }
  }

  lemma OwnedIndexed(s: State, s': State)
    requires Indexed(s) && |s'.slots| == |s.slots| && s'.tasks == s.tasks && s'.table == s.table
    ensures Indexed(s')
  {
  }

  /** The prepared attempt is found again under its own id, or not at all. */
  lemma RedeemOwned(s: State, t: nat, i: nat, d: Decision)
    requires Owned(s) && t < |s.tasks| && s.tasks[t] == Prepared(i, d) && Indexed(Redeem(s, t, i, d))
    ensures Owned(Redeem(s, t, i, d))
  {
    assert s.tasks[t] in s.tasks;
    CarriesOwned(s, Redeem(s, t, i, d));
  }

  lemma ThreadOwned(s: State, t: nat, x: Input)
    requires Safe(s) && Owned(s) && CanGo(s, t)
    ensures Owned(DoGo(s, t, x))
  {
    hide Safe, Owned, Region, RecordAttempt, Turned, Install, WellIndexed, Redeem;
    ThreadKeeps(s, t, x);
    SafeIndexed(DoGo(s, t, x));
    SafeIndexed(s);
    var k := s.tasks[t];
    assert k in s.tasks;
    if k.ShutdownNoting? {
      CarriesOwned(s, DoGo(s, t, x));
    } else if k.Prepared? {
      RedeemOwned(s, t, k.slot, k.decision);
    } else {
      RegionTurns(s, t, x, k, k.slot, s.slots[k.slot]);
      TurnOwned(s, t, k, k.slot, s.slots[k.slot], Region(ContextOf(s), k, s.slots[k.slot], x));
    }
  }

  lemma StepOwned(s: State, a: Action)
    requires Safe(s) && TableListed(s) && Owned(s) && Fresh(s, a)
    ensures Owned(Do(s, a))
  {
    hide Safe, Owned, DoRegister, DoPop, DoShutdown, TableListed, DoGo, Known, WellIndexed;
    StepKeeps(s, a);
    SafeIndexed(Do(s, a));
    if Enabled(s, a) {
      match a {
        case Register(ask, queued) => RegisterOwned(s, ask, queued);
        case Go(t, x) => ThreadOwned(s, t, x);
        case Pop => PopOwned(s);
        case Shutdown(cancelActive) =>
          if s.run == Up { var journal := ShutdownHalts(s, cancelActive); } else { NotUp(s, cancelActive); }
          CarriesOwned(s, Do(s, a));
        case Copy(_) => assert false;
        case _ => CarriesOwned(s, Do(s, a));
      }
    }
  }

  lemma StartOwned(limit: nat, capacity: nat, workers: nat, epoch: u64, incarnation: u64, b: Backend)
    ensures Owned(Start(limit, capacity, workers, epoch, incarnation, b))
  {
  }
}
