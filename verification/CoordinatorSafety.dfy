/** What every interleaving keeps: the commit boundary fences, cancellation holds, a commit is backed by a record. */
module CoordinatorSafety {
  import opened Bytes
  import opened Records
  import opened Recovery
  import opened StoreOps
  import opened Reaping
  import opened Coordinator
  import opened CoordinatorBackend
  import Ordered

  // ---- one region -------------------------------------------------------------------------------

  /** A slot never forgets: what it is for, that it ended and how, that it was cancelled, that it crossed. */
  predicate Evolves(a: Slot, b: Slot) {
    && b.ask == a.ask
    && (a.terminal ==> b.terminal && b.state == a.state && b.code == a.code)
    && (a.crossed ==> b.crossed)
    && (a.cancelRequested ==> b.cancelRequested && (!a.crossed ==> !b.crossed))
    && (a.journalled ==> b.journalled)
  }

  /** The thread has crossed the boundary and its commit is not over. */
  predicate Crossing(t: Task) {
    InBoundary(t) && !t.Checking?
  }

  /** What a slot becomes in a region outside the boundary. */
  predicate Advanced(slot: Slot, slot': Slot) {
    && Evolves(slot, slot') && slot'.crossed == slot.crossed
    && slot'.placementId == slot.placementId && slot'.generation == slot.generation
    && (Reported(slot') ==> Reported(slot))
  }

  predicate Reporting(t: Task) {
    t.Reporting? || t.Journalling? || t.Finishing?
  }

  /** What one region of a thread does to the slot it works on, whatever the region. */
  predicate Framed(c: Context, t: Task, slot: Slot, r: Turn) {
    && (r.task.Done? || SlotOf(r.task) == SlotOf(t))
    && (r.lock == Take ==> t.Entering?) && (r.lock == Drop ==> InBoundary(t))
    && (InBoundary(r.task) <==> r.lock == Take || (r.lock == Same && InBoundary(t)))
    && (t.CancelNoting? || r.enqueued ==> r.task.Done?) && (r.enqueued ==> t.Enqueueing?)
    && (if InBoundary(t) then CommitFramed(c, t, slot, r)
        else Advanced(slot, r.slot) && !Crossing(r.task) && r.placed == [])
  }

  predicate CommitFramed(c: Context, t: Task, slot: Slot, r: Turn) {
    && Evolves(slot, r.slot)
    && (Crossing(r.task) ==> r.slot.crossed)
    && (r.slot.crossed && !slot.crossed ==> t.Checking? && r.task.Loading?)
    && (r.placed != [] ==> t.Appending?) && PlacesOne(r.placed, slot.ask.expected.epoch)
    && (BeforeAppend(r.task) && !BeforeAppend(t) ==> InForce(c.epoch, c.authority, slot))
  }

  /** A turn that journals one phase and does nothing else. */
  ghost predicate Journals(c: Context, slot: Slot, phase: Phase, next: Task, a: Answer) {
    var r := a.turn;
    && r == Quiet(c, slot, next).(backend := r.backend, tried := r.tried) && Grows(c.backend, r.backend)
    && AddsOne(c.backend, r.backend, r.tried, slot.ask.attempt, phase)
    && (c.backend.OnDisk? && a.code == OK ==> r.tried != [])
    && (c.backend.InMemory? ==> r.tried == [])
  }

  lemma JournaledFacts(c: Context, slot: Slot, e: Ending, clock: i64, next: Task)
    ensures Journals(c, slot, e.phase, next, Journaled(c, slot, e, clock, next))
  {
    hide WellIndexed, RecordAttempt, Grows, AddsOne;
    RecordFacts(c.backend, AttemptOf(c, slot, e, clock));
  }

  lemma SlotSteps(slot: Slot, d: Decision)
    ensures Advanced(slot, slot)
    ensures forall st: AttemptState, code: StatusCode :: st != IsCommitted ==> Advanced(slot, FinalizeSlot(slot, st, code))
    ensures forall st: AttemptState, code: StatusCode :: st != IsCommitted ==> Advanced(slot, FinalizeSlot(slot.(decision := d), st, code))
    ensures Advanced(slot, slot.(journalled := true, pending := None))
    ensures !slot.terminal ==> Advanced(slot, slot.(running := true, state := IsRunning))
    ensures Advanced(slot, slot.(decision := d))
    ensures Advanced(slot, slot.(inWorker := false))
  {
  }

  lemma RegisterFrame(c: Context, t: Task, slot: Slot, x: Input)
    requires Registering(t)
    ensures var r := RegisterRegion(c, t, slot, x); Framed(c, t, slot, r) && Grows(c.backend, r.backend)
  {
    hide WellIndexed, Journaled, Grows, AddsOne, Advanced, FinalizeSlot;
    GrowsSelf(c.backend);
    SlotSteps(slot, x.decision);
    if t.Starting? { JournaledFacts(c, slot, Ending(Started, OK), x.clock, Done); }
    if t.Catching? { JournaledFacts(c, slot, t.ending, x.clock, Registered(t.slot, t.queued)); }
  }

  lemma DecideFrame(c: Context, t: Task, slot: Slot, x: Input)
    requires OnSlot(t) && !Registering(t) && !InBoundary(t) && !Settling(t)
    ensures var r := DecideRegion(c, t, slot, x); Framed(c, t, slot, r) && Grows(c.backend, r.backend)
  {
    hide WellIndexed, Grows, Advanced, FinalizeSlot;
    GrowsSelf(c.backend);
    SlotSteps(slot, if t.Redeeming? then t.decision else x.decision);
  }

  lemma BoundaryPasses(c: Context, slot: Slot)
    ensures BoundaryCode(c, slot) == OK ==> InForce(c.epoch, c.authority, slot) && !slot.terminal && !slot.cancelRequested
  {
    hide WellIndexed, AuthorityMatches;
  }

  lemma NonePlaced(epoch: u64)
    ensures PlacesOne([], epoch)
  {
  }

  lemma StoringFrame(c: Context, t: Task, slot: Slot, x: Input)
    requires (t.Appending? || t.Journalling?) && slot.crossed
    ensures var r := CommitRegion(c, t, slot, x); Framed(c, t, slot, r) && Grows(c.backend, r.backend)
  {
    hide WellIndexed, Grows, InForce, Journaled, CommitDecision, AddsOne, StateForFailure, PlacesOne;
    NonePlaced(slot.ask.expected.epoch);
    if t.Journalling? { JournaledFacts(c, slot, Ending(Committed, OK), x.clock, Finishing(t.slot, t.worker)); }
    if t.Appending? { DecisionFacts(c, slot, t.decision, x.clock); }
  }

  lemma CommitFrame(c: Context, t: Task, slot: Slot, x: Input)
    requires InBoundary(t) && (Crossing(t) ==> slot.crossed)
    ensures var r := CommitRegion(c, t, slot, x); Framed(c, t, slot, r) && Grows(c.backend, r.backend)
  {
    hide WellIndexed, Grows, InForce, BoundaryCode, Journaled, CommitDecision, PlacesOne;
    if t.Appending? || t.Journalling? {
      StoringFrame(c, t, slot, x);
    } else {
      GrowsSelf(c.backend);
      NonePlaced(slot.ask.expected.epoch);
      BoundaryPasses(c, slot);
    }
  }

  lemma NotingFrame(c: Context, t: Task, slot: Slot, x: Input)
    requires t.Noting? || t.CancelNoting?
    ensures var r := SettleRegion(c, t, slot, x); Framed(c, t, slot, r) && Grows(c.backend, r.backend)
  {
    hide WellIndexed, Grows, Journaled, AddsOne;
    if t.Noting? { JournaledFacts(c, slot, t.ending, x.clock, Leave(t.slot, t.worker)); }
    if t.CancelNoting? { JournaledFacts(c, slot, Ending(Cancelled, CANCELLED), x.clock, Done); }
  }

  lemma SettleFrame(c: Context, t: Task, slot: Slot, x: Input)
    requires Settling(t)
    ensures var r := SettleRegion(c, t, slot, x); Framed(c, t, slot, r) && Grows(c.backend, r.backend)
  {
    hide WellIndexed, Grows, Journaled, Advanced, FinalizeSlot;
    if t.Noting? || t.CancelNoting? {
      NotingFrame(c, t, slot, x);
    } else {
      GrowsSelf(c.backend);
      SlotSteps(slot, x.decision);
      FailureStates();
    }
  }

  lemma FailureStates()
    ensures forall code: StatusCode :: StateForFailure(code) != IsCommitted
  {
  }

  lemma RegionParts(c: Context, t: Task, slot: Slot, x: Input)
    ensures Region(c, t, slot, x) ==
            if Registering(t) then RegisterRegion(c, t, slot, x)
            else if InBoundary(t) then CommitRegion(c, t, slot, x)
            else if Settling(t) then SettleRegion(c, t, slot, x)
            else DecideRegion(c, t, slot, x)
  {
    hide RegisterRegion, CommitRegion, SettleRegion, DecideRegion;
  }

  lemma RegionFrame(c: Context, t: Task, slot: Slot, x: Input)
    requires OnSlot(t) && (Crossing(t) ==> slot.crossed)
    ensures var r := Region(c, t, slot, x); Framed(c, t, slot, r) && Grows(c.backend, r.backend)
  {
    hide WellIndexed, RegisterRegion, DecideRegion, CommitRegion, SettleRegion, Framed, Grows;
    if Registering(t) { RegisterFrame(c, t, slot, x); }
    else if InBoundary(t) { CommitFrame(c, t, slot, x); }
    else if Settling(t) { SettleFrame(c, t, slot, x); }
    else { DecideFrame(c, t, slot, x); }
  }

  lemma GrowsSelf(b: Backend)
    ensures Grows(b, b)
  {
  }

  /** The view of epoch and authority that an attempt needs at the boundary. */
  predicate InForce(epoch: u64, authority: Authority, slot: Slot) {
    slot.ask.expected.epoch == epoch && AuthorityMatches(authority, slot.ask.expected)
  }

  predicate BeforeAppend(t: Task) {
    t.Loading? || t.Appending?
  }

  // ---- invariants ----------------------------------------------------------------------------------

  /** commit_mu is held by exactly the thread inside the boundary. */
  predicate Locked(s: State) {
    && (s.holder.Some? ==> s.holder.value < |s.tasks|)
    && (forall t :: 0 <= t < |s.tasks| ==> (InBoundary(s.tasks[t]) <==> s.holder == Some(t)))
  }

  /** A thread past the checks owns a crossed slot, and what it checked is still in force until it appends. */
  predicate Checked(s: State) {
    Indexed(s) && forall t <- s.tasks | OnSlot(t) ::
      && (Crossing(t) ==> s.slots[t.slot].crossed)
      && (BeforeAppend(t) ==> InForce(s.epoch, s.authority, s.slots[t.slot]))
  }

  /** Every placement was made under the epoch then current and a matching view, by a slot that crossed; epochs never go back. */
  predicate FencedPlacings(s: State) {
    && (forall p <- s.placings ::
          && p.slot < |s.slots| && s.slots[p.slot].crossed
          && p.record.commitEpoch == p.epoch == s.slots[p.slot].ask.expected.epoch <= s.epoch
          && AuthorityMatches(p.authority, s.slots[p.slot].ask.expected))
    && (forall i, j :: 0 <= i < j < |s.placings| ==> s.placings[i].epoch <= s.placings[j].epoch)
  }

  predicate HasRecord(b: Backend, slot: Slot) {
    exists p <- RecordsOf(b) :: p.id == slot.placementId && p.generation == slot.generation
  }

  predicate Reported(slot: Slot) {
    slot.terminal && slot.state == IsCommitted
  }

  /** The backend holds what the thread will report, or has written down in its slot. */
  predicate HeldFor(b: Backend, t: Task, slot: Slot) {
    && (t.Reporting? ==> t.record in RecordsOf(b))
    && (t.Journalling? || t.Finishing? ==> HasRecord(b, slot))
  }

  /** A commit that is reported, or about to be, names a record the backend holds. */
  predicate Backed(s: State) {
    && Indexed(s)
    && (forall slot <- s.slots :: Reported(slot) ==> slot.crossed && HasRecord(s.backend, slot))
    && (forall t <- s.tasks | OnSlot(t) :: HeldFor(s.backend, t, s.slots[t.slot]))
  }

  predicate Safe(s: State) {
    Indexed(s) && Locked(s) && Checked(s) && FencedPlacings(s) && Backed(s)
  }

  // ---- slots that change under a region ---------------------------------------------------------------

  predicate HasSlot(s: State, i: nat, slot: Slot) {
    i < |s.slots| && s.slots[i] == slot
  }

  /** Thread t is at k and works on slot i. */
  predicate Works(s: State, t: nat, k: Task, i: nat, slot: Slot) {
    t < |s.tasks| && s.tasks[t] == k && SlotOf(k) == i && HasSlot(s, i, slot)
  }

  lemma LockedGo(s: State, t: nat, k: Task, i: nat, slot: Slot, r: Turn)
    requires Locked(s) && Works(s, t, k, i, slot)
    requires (r.lock == Take ==> s.holder.None?) && (r.lock == Drop ==> InBoundary(k))
    requires InBoundary(r.task) <==> r.lock == Take || (r.lock == Same && InBoundary(k))
    ensures Locked(Install(s, t, i, r))
  {
    hide WellIndexed, InBoundary;
  }

  lemma IndexedGo(s: State, t: nat, i: nat, r: Turn)
    requires Indexed(s) && SlotOf(r.task) <= i < |s.slots|
    ensures Indexed(Install(s, t, i, r))
  {
    var s' := Install(s, t, i, r);
    assert forall k :: k in s'.tasks ==> k == r.task || k in s.tasks;
  }

  lemma CheckedGo(s: State, t: nat, k: Task, i: nat, slot: Slot, r: Turn)
    requires Checked(s) && Works(s, t, k, i, slot) && Indexed(Install(s, t, i, r))
    requires Evolves(slot, r.slot) && (r.task.Done? || SlotOf(r.task) == i)
    requires Crossing(r.task) ==> r.slot.crossed
    requires BeforeAppend(r.task) && !BeforeAppend(k) ==> InForce(s.epoch, s.authority, slot)
    ensures Checked(Install(s, t, i, r))
  {
    hide WellIndexed, AuthorityMatches;
    var s' := Install(s, t, i, r);
    assert k in s.tasks;
    assert forall u :: u in s'.tasks ==> u == r.task || u in s.tasks;
  }

  lemma PlacingsGo(s: State, t: nat, k: Task, i: nat, slot: Slot, r: Turn)
    requires Checked(s) && FencedPlacings(s) && Works(s, t, k, i, slot)
    requires Evolves(slot, r.slot) && (r.placed != [] ==> k.Appending?) && PlacesOne(r.placed, slot.ask.expected.epoch)
    ensures FencedPlacings(Install(s, t, i, r))
  {
    hide WellIndexed, AuthorityMatches;
    var s' := Install(s, t, i, r);
    assert k in s.tasks;
    forall p | p in s'.placings
      ensures p.slot < |s'.slots| && s'.slots[p.slot].crossed
      ensures p.record.commitEpoch == p.epoch == s'.slots[p.slot].ask.expected.epoch <= s'.epoch
      ensures AuthorityMatches(p.authority, s'.slots[p.slot].ask.expected)
    {
      if p !in s.placings {
        assert p in Placings(s, i, r.placed);
        var n :| 0 <= n < |r.placed| && p == Placing(i, r.placed[n], s.epoch, s.authority);
        assert r.placed[n] in r.placed;
      }
    }
  }

  /** A region reports only what the backend holds, and commits only what it reported. */
  predicate Reports(c: Context, slot: Slot, r: Turn) {
    && ((r.slot.placementId == slot.placementId && r.slot.generation == slot.generation) || HasRecord(c.backend, r.slot))
    && (Reported(r.slot) ==> Reported(slot) || (r.slot.crossed && HasRecord(c.backend, r.slot)))
    && (r.task.Reporting? ==> r.task.record in RecordsOf(r.backend))
    && (r.task.Journalling? || r.task.Finishing? ==> HasRecord(c.backend, r.slot))
  }

  lemma BackedGo(s: State, t: nat, k: Task, i: nat, slot: Slot, r: Turn)
    requires Backed(s) && Works(s, t, k, i, slot) && Indexed(Install(s, t, i, r))
    requires (r.task.Done? || SlotOf(r.task) == i) && RecordsOf(s.backend) <= RecordsOf(r.backend)
    requires (slot.crossed ==> r.slot.crossed) && Reports(ContextOf(s), slot, r)
    ensures Backed(Install(s, t, i, r))
  {
    hide WellIndexed, RecordsOf, Placings, HasRecord;
    var s' := Install(s, t, i, r);
    forall y: Slot | HasRecord(s.backend, y) ensures HasRecord(s'.backend, y) {
      Held(s.backend, s'.backend, y);
    }
    assert slot in s.slots;
    if HasRecord(s.backend, slot) { SameRecord(s.backend, slot, r.slot); }
    assert forall y :: y in s'.slots ==> y == r.slot || y in s.slots;
    assert forall u :: u in s'.tasks ==> u == r.task || u in s.tasks;
  }

  lemma Held(b: Backend, b': Backend, slot: Slot)
    requires RecordsOf(b) <= RecordsOf(b') && HasRecord(b, slot)
    ensures HasRecord(b', slot)
  {
    hide WellIndexed, RecordsOf;
    var p :| p in RecordsOf(b) && p.id == slot.placementId && p.generation == slot.generation;
    assert p in RecordsOf(b');
  }

  lemma SameRecord(b: Backend, x: Slot, y: Slot)
    requires HasRecord(b, x) && ((y.placementId == x.placementId && y.generation == x.generation) || HasRecord(b, y))
    ensures HasRecord(b, y)
  {
    hide WellIndexed, RecordsOf;
  }

  lemma CommitReports(c: Context, t: Task, slot: Slot, x: Input)
    requires InBoundary(t) && HeldFor(c.backend, t, slot) && (Crossing(t) ==> slot.crossed)
    ensures Reports(c, slot, CommitRegion(c, t, slot, x))
  {
    hide WellIndexed, RecordAttempt, CommitDecision, RecordsOf, BoundaryCode, Grows;
    if t.Appending? { DecisionFacts(c, slot, t.decision, x.clock); }
  }

  lemma RegionReports(c: Context, t: Task, slot: Slot, x: Input)
    requires OnSlot(t) && HeldFor(c.backend, t, slot) && (Crossing(t) ==> slot.crossed)
    requires Framed(c, t, slot, Region(c, t, slot, x))
    ensures Reports(c, slot, Region(c, t, slot, x))
  {
    hide WellIndexed, RecordsOf, RegisterRegion, DecideRegion, SettleRegion, CommitRegion, HasRecord, InForce, Evolves;
    if InBoundary(t) { CommitReports(c, t, slot, x); }
  }

  lemma GoKeeps(s: State, t: nat, k: Task, i: nat, slot: Slot, r: Turn)
    requires Safe(s) && Works(s, t, k, i, slot) && CanGo(s, t)
    requires Framed(ContextOf(s), k, slot, r) && Grows(s.backend, r.backend) && Reports(ContextOf(s), slot, r)
    ensures Safe(Install(s, t, i, r))
  {
    hide WellIndexed, Locked, FencedPlacings, Checked, Backed, Grows, Install, InForce, HasRecord, RecordsOf, Reports;
    GrowsOk(s.backend, r.backend);
    IndexedGo(s, t, i, r);
    LockedGo(s, t, k, i, slot, r);
    CheckedGo(s, t, k, i, slot, r);
    PlacingsGo(s, t, k, i, slot, r);
    BackedGo(s, t, k, i, slot, r);
  }

  /** What the region of thread t does, for a state that is safe. */
  ghost predicate Turned(s: State, t: nat, k: Task, i: nat, slot: Slot, r: Turn) {
    && Works(s, t, k, i, slot) && CanGo(s, t) && Framed(ContextOf(s), k, slot, r) && Grows(s.backend, r.backend)
  }

  lemma RegionTurns(s: State, t: nat, x: Input, k: Task, i: nat, slot: Slot)
    requires Safe(s) && CanGo(s, t) && Works(s, t, k, i, slot)
    ensures Turned(s, t, k, i, slot, Region(ContextOf(s), k, slot, x)) && HeldFor(s.backend, k, slot)
    ensures Crossing(k) ==> slot.crossed
  {
    hide WellIndexed, Locked, FencedPlacings, Region, Grows, InForce, HasRecord, RecordsOf, Framed;
    assert k in s.tasks && slot in s.slots;
    RegionFrame(ContextOf(s), k, slot, x);
  }

  lemma GrowsOk(b: Backend, b': Backend)
    requires Grows(b, b')
    ensures b'.OnDisk? == b.OnDisk? && RecordsOf(b) <= RecordsOf(b')
  {
  }

  // ---- everything else a step may change ------------------------------------------------------------------

  /** A slot changed from outside any commit: nothing it reported changes and it is not thereby committed. */
  predicate Touched(a: Slot, b: Slot) {
    && Evolves(a, b) && b.crossed == a.crossed
    && b.placementId == a.placementId && b.generation == a.generation
    && (Reported(b) ==> Reported(a))
  }

  lemma TouchKeeps(s: State, i: nat, a: Slot, b: Slot)
    requires Safe(s) && HasSlot(s, i, a) && Touched(a, b)
    ensures Safe(PutSlot(s, i, b))
  {
    hide WellIndexed, Locked, RecordsOf, AuthorityMatches, HasRecord;
    var s' := PutSlot(s, i, b);
    SameLocks(s, s');
    assert a in s.slots;
    if HasRecord(s.backend, a) { SameRecord(s.backend, a, b); }
    assert forall y :: y in s'.slots ==> y == b || y in s.slots;
  }

  lemma SameLocks(s: State, s': State)
    requires Locked(s) && s'.tasks == s.tasks && s'.holder == s.holder
    ensures Locked(s')
  {
  }

  /** A thread outside the boundary, on a known slot if on any. */
  predicate Outside(s: State, k: Task) {
    !InBoundary(k) && SlotOf(k) < |s.slots|
  }

  /** The thread at t, outside the boundary, moves to k, or a new thread starts there. */
  predicate Moves(s: State, s': State, t: nat, k: Task) {
    && t <= |s.tasks| && (t < |s.tasks| ==> !InBoundary(s.tasks[t]))
    && s'.tasks == if t < |s.tasks| then s.tasks[t := k] else s.tasks + [k]
  }

  lemma MoveKeeps(s: State, s': State, t: nat, k: Task)
    requires Safe(s) && Moves(s, s', t, k) && Outside(s, k) && s' == s.(tasks := s'.tasks)
    ensures Safe(s')
  {
    hide WellIndexed, HasRecord, InForce, FencedPlacings, RecordsOf;
    assert forall y :: y in s'.tasks ==> y in s.tasks || y == k;
    PlacingsOnly(s, s');
  }

  lemma PlacingsOnly(s: State, s': State)
    requires FencedPlacings(s) && s'.placings == s.placings && s'.slots == s.slots && s'.epoch >= s.epoch
    ensures FencedPlacings(s')
  {
  }

  /** Fields no safety invariant reads, a table that names known slots, and a backend that has grown. */
  lemma RestKeeps(s: State, s': State)
    requires Safe(s)
    requires s'.slots == s.slots && s'.tasks == s.tasks && s'.holder == s.holder && s'.placings == s.placings
    requires s'.epoch == s.epoch && s'.authority == s.authority
    requires RecordsOf(s.backend) <= RecordsOf(s'.backend) && TableKnown(s')
    ensures Safe(s')
  {
    hide WellIndexed, HasRecord, InForce, FencedPlacings, RecordsOf, Locked;
    PlacingsOnly(s, s');
    SameLocks(s, s');
    forall slot: Slot | HasRecord(s.backend, slot) ensures HasRecord(s'.backend, slot) {
      Held(s.backend, s'.backend, slot);
    }
  }

  /** Nobody is inside the boundary, so the view may change. */
  lemma ViewKeeps(s: State, epoch: u64, authority: Authority)
    requires Safe(s) && BoundaryFree(s) && epoch >= s.epoch
    ensures Safe(s.(epoch := epoch, authority := authority))
  {
    hide WellIndexed, HasRecord, InForce, FencedPlacings, RecordsOf;
    var s' := s.(epoch := epoch, authority := authority);
    PlacingsOnly(s, s');
    forall k | k in s'.tasks ensures !InBoundary(k) {
      var t :| 0 <= t < |s.tasks| && s.tasks[t] == k;
    }
  }

  /** s' is s with a new slot and the thread that registers it. */
  predicate Joins(s: State, s': State, a: Ask, queued: bool) {
    s'.slots == s.slots + [NewSlot(a)] && s'.tasks == s.tasks + [Starting(|s.slots|, queued)]
  }

  lemma NewSlotKeeps(s: State, s': State, a: Ask, queued: bool)
    requires Safe(s) && Joins(s, s', a, queued) && s' == s.(slots := s'.slots, tasks := s'.tasks)
    ensures Safe(s')
  {
    hide WellIndexed, HasRecord, AuthorityMatches, RecordsOf;
    assert forall y :: y in s'.slots <==> y in s.slots || y == NewSlot(a);
    assert forall y :: y in s'.tasks <==> y in s.tasks || y == Starting(|s.slots|, queued);
  }

  /** What registering an attempt does: it joins, and older ones may be reaped. */
  ghost predicate Registers(s: State, s': State, a: Ask, queued: bool) {
    && Joins(s, s', a, queued) && TableListed(s')
    && (forall b <- s'.table :: if b == a.attempt then s'.table[b] == |s.slots| else b in s.table && s'.table[b] == s.table[b])
    && s' == s.(slots := s'.slots, tasks := s'.tasks, table := s'.table, order := s'.order,
                stats := s.stats.(accepted := s.stats.accepted + 1))
  }

  lemma RegisterReaps(s: State, a: Ask, queued: bool)
    requires TableListed(s) && Admissible(s, a, queued)
    ensures Registers(s, DoRegister(s, a, queued), a, queued)
  {
    hide WellIndexed, Reap, Listed, InFlight;
    var i := |s.slots|;
    var s1 := s.(slots := s.slots + [NewSlot(a)], table := s.table[a.attempt := i], order := s.order + [a.attempt],
                 stats := s.stats.(accepted := s.stats.accepted + 1), tasks := s.tasks + [Starting(i, queued)]);
    var before := Retained(s1.table, s1.order);
    ListedGrows(s.table, s.order, a.attempt, i);
    NothingSeen(before, InFlight(s1));
    ReapKeeps(before, InFlight(s1), s.limit, 0);
    assert TableListed(DoRegister(s, a, queued));
  }

  lemma RegisterKeeps(s: State, a: Ask, queued: bool)
    requires Safe(s) && TableListed(s)
    ensures Safe(DoRegister(s, a, queued)) && TableListed(DoRegister(s, a, queued))
  {
    hide WellIndexed, Safe, DoRegister, TableListed;
    var s' := DoRegister(s, a, queued);
    if Admissible(s, a, queued) {
      RegisterReaps(s, a, queued);
      SafeIndexed(s);
      var s0 := s.(slots := s'.slots, tasks := s'.tasks);
      NewSlotKeeps(s, s0, a, queued);
      RestKeeps(s0, s');
    } else {
      NotAdmitted(s, a, queued);
    }
  }

  lemma NotAdmitted(s: State, a: Ask, queued: bool)
    requires !Admissible(s, a, queued)
    ensures DoRegister(s, a, queued) == s
  {
    hide WellIndexed, Reap, InFlight;
  }

  lemma SafeIndexed(s: State)
    requires Safe(s)
    ensures Indexed(s)
  {
  }

  /** The retention order lists every known attempt once. */
  ghost predicate TableListed(s: State) {
    Listed(Retained(s.table, s.order))
  }

  lemma ListedGrows(table: map<u64, nat>, order: seq<u64>, a: u64, i: nat)
    requires Listed(Retained(table, order)) && a !in table
    ensures Listed(Retained(table[a := i], order + [a]))
  {
  }

  predicate SameTable(s: State, s': State) {
    s'.table == s.table && s'.order == s.order
  }

  lemma PopKeeps(s: State)
    requires Safe(s)
    ensures Safe(DoPop(s)) && SameTable(s, DoPop(s))
  {
    hide WellIndexed, Safe;
    SafeIndexed(s);
    if CanPop(s) {
      var id := s.queue[0];
      var s1 := s.(queue := s.queue[1..], queueDepth := s.queueDepth - 1);
      RestKeeps(s, s1);
      if id in s.table && !s.slots[s.table[id]].terminal {
        var i := s.table[id];
        var slot := s.slots[i];
        TouchKeeps(s1, i, slot, slot.(state := IsRunning, inWorker := true));
        var s2 := PutSlot(s1, i, slot.(state := IsRunning, inWorker := true)).(active := s.active + 1, idle := s.idle - 1);
        RestKeeps(PutSlot(s1, i, slot.(state := IsRunning, inWorker := true)), s2);
        MoveKeeps(s2, DoPop(s), |s.tasks|, Deciding(i, true));
      }
    }
  }

  lemma CancelKeeps(s: State, attempt: u64)
    requires Safe(s)
    ensures Safe(DoCancel(s, attempt)) && SameTable(s, DoCancel(s, attempt))
  {
    hide WellIndexed, Safe;
    SafeIndexed(s);
    if Cancellable(s, attempt) {
      var i := s.table[attempt];
      TouchKeeps(s, i, s.slots[i], CancelSlot(s.slots[i]));
      var s1 := PutSlot(s, i, CancelSlot(s.slots[i]));
      if DoCancel(s, attempt) != s1 { MoveKeeps(s1, DoCancel(s, attempt), |s.tasks|, CancelNoting(i)); }
    }
  }

  lemma EndOneKeeps(e: Ended, a: u64, queued: bool, cancelActive: bool)
    requires Safe(e.state)
    ensures var s' := EndOne(e, a, queued, cancelActive).state; Safe(s') && SameTable(e.state, s')
  {
    hide WellIndexed, Safe;
    if Ends(e.state, a, queued, cancelActive) {
      var i := e.state.table[a];
      TouchKeeps(e.state, i, e.state.slots[i], ShutdownSlot(e.state.slots[i]));
    }
  }

  lemma {:induction false} EndAllKeeps(e: Ended, ids: seq<u64>, queued: bool, cancelActive: bool)
    requires Safe(e.state)
    ensures var s' := EndAll(e, ids, queued, cancelActive).state; Safe(s') && SameTable(e.state, s')
    decreases |ids|
  {
    hide WellIndexed, Safe, EndOne;
    if ids != [] {
      EndOneKeeps(e, ids[0], queued, cancelActive);
      EndAllKeeps(EndOne(e, ids[0], queued, cancelActive), ids[1..], queued, cancelActive);
    }
  }

  lemma ShutdownKeeps(s: State, cancelActive: bool)
    requires Safe(s)
    ensures Safe(DoShutdown(s, cancelActive)) && SameTable(s, DoShutdown(s, cancelActive))
  {
    hide WellIndexed, Safe, EndAll;
    SafeIndexed(s);
    if s.run == Up {
      var s0 := s.(run := ShuttingDown);
      RestKeeps(s, s0);
      EndAllKeeps(Ended(s0, []), s.queue, true, cancelActive);
      var first := EndAll(Ended(s0, []), s.queue, true, cancelActive);
      SafeIndexed(first.state);
      var emptied := Ended(first.state.(queue := [], queueDepth := 0), first.journal);
      RestKeeps(first.state, emptied.state);
      var ids := Ordered.Ascending(s.table.Keys);
      EndAllKeeps(emptied, ids, false, cancelActive);
      var last := EndAll(emptied, ids, false, cancelActive);
      MoveKeeps(last.state, DoShutdown(s, cancelActive), |last.state.tasks|, ShutdownNoting(last.journal));
    }
  }

  /** Thread t journals for Shutdown the attempts listed. */
  predicate Notes(s: State, t: nat, attempts: seq<u64>) {
    t < |s.tasks| && s.tasks[t] == ShutdownNoting(attempts)
  }

  lemma NoteShutdownKeeps(s: State, t: nat, attempts: seq<u64>, clock: i64)
    requires Safe(s) && Notes(s, t, attempts)
    ensures var s' := NoteShutdown(s, t, attempts, clock); Safe(s') && SameTable(s, s')
  {
    hide WellIndexed, Safe, RecordAttempt, RecordsOf;
    SafeIndexed(s);
    if attempts == [] {
      MoveKeeps(s, NoteShutdown(s, t, attempts, clock), t, Done);
    } else {
      var s1 := s.(tasks := s.tasks[t := ShutdownNoting(attempts[1..])]);
      MoveKeeps(s, s1, t, ShutdownNoting(attempts[1..]));
      if attempts[0] in s.table {
        var a := AttemptOf(ContextOf(s), s.slots[s.table[attempts[0]]], Ending(Cancelled, SHUTTING_DOWN), clock);
        RecordFacts(s.backend, a);
        GrowsOk(s.backend, RecordAttempt(s.backend, a).backend);
        RestKeeps(s1, NoteShutdown(s, t, attempts, clock));
      }
    }
  }

  lemma RedeemKeeps(s: State, t: nat, i: nat, d: Decision)
    requires Safe(s) && t < |s.tasks| && s.tasks[t] == Prepared(i, d)
    ensures Safe(Redeem(s, t, i, d)) && SameTable(s, Redeem(s, t, i, d))
  {
    hide WellIndexed, Safe;
    SafeIndexed(s);
    assert s.tasks[t] in s.tasks;
    var k := s.slots[i].ask.attempt;
    MoveKeeps(s, Redeem(s, t, i, d), t, if k in s.table then Redeeming(s.table[k], d) else Done);
  }

  lemma ThreadKeeps(s: State, t: nat, x: Input)
    requires Safe(s) && CanGo(s, t)
    ensures Safe(DoGo(s, t, x)) && SameTable(s, DoGo(s, t, x))
  {
    hide WellIndexed, Safe, Region, NoteShutdown, Redeem, Framed, Grows, Reports;
    SafeIndexed(s);
    var k := s.tasks[t];
    assert k in s.tasks;
    if k.ShutdownNoting? {
      NoteShutdownKeeps(s, t, k.attempts, x.clock);
    } else if k.Prepared? {
      RedeemKeeps(s, t, k.slot, k.decision);
    } else {
      var i, slot := k.slot, s.slots[k.slot];
      RegionTurns(s, t, x, k, i, slot);
      RegionReports(ContextOf(s), k, slot, x);
      GoKeeps(s, t, k, i, slot, Region(ContextOf(s), k, slot, x));
    }
  }

  /** Every step of every thread, in any order, keeps the coordinator safe. */
  lemma StepKeeps(s: State, a: Action)
    requires Safe(s) && TableListed(s)
    ensures Safe(Do(s, a)) && TableListed(Do(s, a))
  {
    hide WellIndexed, Safe, DoRegister, DoPop, DoCancel, DoShutdown, DoGo, Listed;
    SafeIndexed(s);
    if Enabled(s, a) {
      match a {
        case Register(ask, queued) => RegisterKeeps(s, ask, queued);
        case Go(t, x) => ThreadKeeps(s, t, x);
        case Copy(t) =>
          assert s.tasks[t] in s.tasks;
          MoveKeeps(s, Do(s, a), |s.tasks|, s.tasks[t]);
        case Pop => PopKeeps(s);
        case Cancel(attempt) => CancelKeeps(s, attempt);
        case AdvanceEpoch => ViewKeeps(s, Do(s, a).epoch, Do(s, a).authority);
        case SetAuthority(e) => ViewKeeps(s, Do(s, a).epoch, Do(s, a).authority);
        case Await(attempt) =>
          if attempt in s.table {
            var i := s.table[attempt];
            TouchKeeps(s, i, s.slots[i], FinalizeSlot(s.slots[i], IsFailed, SHUTTING_DOWN));
          }
        case Shutdown(cancelActive) => ShutdownKeeps(s, cancelActive);
        case Stop => RestKeeps(s, Do(s, a));
        case Close => RestKeeps(s, Do(s, a));
      }
    }
  }

  lemma StartSafe(limit: nat, capacity: nat, workers: nat, epoch: u64, incarnation: u64, b: Backend)
    ensures var s := Start(limit, capacity, workers, epoch, incarnation, b); Safe(s) && TableListed(s)
  {
  }
}
