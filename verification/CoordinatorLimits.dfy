/** Where the coordinator's promises stop: runs that end with a durable placement and a report that denies it. */
module CoordinatorLimits {
  import opened Bytes
  import opened Records
  import opened Recovery
  import opened StoreOps
  import opened StoreSafety
  import opened Reaping
  import opened Coordinator
  import opened CoordinatorBackend
  import opened CoordinatorSafety
  import opened CoordinatorGuarantees
  import opened CoordinatorOwners
  import opened CoordinatorHarm
  import opened StoreViews
  import opened Journal
  import StoreLimits
  import Ordered

  // ---- the request, the engine's answer and the store ----------------------------------------------------

  const EXPECTED := Authority(1, 5, 5, 5, 5, 5, 0)
  const ASK := Ask(1, 1, EXPECTED, 0, 0)
  const INTENT := Intent(1, 1, 1, 5, 1, 5, 1, 5, 1, 5, 1, 5, 0, 0, 1, 0, 0, 1, 0, 7, 7)
  const CHOICE := Decision(true, Some(INTENT), OK, NoIncumbent, 7, 7, true)
  const INPUT := Input(CHOICE, 0)

  /** Nothing constrained but the epoch, as the coordinator starts; and a view with another path authority. */
  const VIEW := Authority(1, 0, 0, 0, 0, 0, 0)
  const OTHER := Authority(1, 9, 0, 0, 0, 0, 0)

  const STORE := Options(true, false, 0x10_0000, 0, 1000)
  const UNUSED := OnDisk(STORE, Session(FRESH, 0, 0), false, [])

  /** The smallest table the coordinator keeps; the slots of the first attempt and of the one after a full table. */
  const TABLE: nat := 16
  const FIRST: nat := 0
  const AGAIN: nat := 17

  /** The thread that registers the attempt with slot AGAIN. */
  const CREW: nat := 18

  /** Numbers of records, and the id that is used again. */
  const ONE: nat := 1
  const TWO: nat := 2
  const ID: u64 := 1

  /** An open store with n records, none of them a placement or a terminal phase. */
  predicate Roomy(b: Backend, n: nat) {
    && b.OnDisk? && !b.closed && b.options == STORE && b.session.mem.maxSequence == n < 100
    && b.session.mem.commits == map[] && b.session.mem.latest == map[] && PlacedBy(b.writes) == []
    && (forall a <- b.session.mem.attempts :: b.session.mem.attempts[a].phase == Started)
  }

  lemma OneRecord(ws: seq<Write>, line: Line)
    ensures PlacedBy(ws + [Append(line)]) == PlacedBy(ws) + Added(Append(line))
    ensures PlacedBy([Append(line)]) == Added(Append(line))
  {
    PlacedByAppend(ws, [Append(line)]);
    assert [Append(line)][1..] == [];
  }

  lemma StartRoomy(b: Backend, n: nat, a: AttemptRecord)
    requires Roomy(b, n) && n < 99 && a.phase == Started
    ensures RecordAttempt(b, a).code == OK && Roomy(RecordAttempt(b, a).backend, n + 1)
  {
    hide Compact;
    var started := Stamp(b.session, a.(phase := Started));
    var e := AppendAttempt(STORE, b.session, started);
    assert AppendAttemptStart(STORE, b.session, a) == e;
    assert e.session.mem.attempts == b.session.mem.attempts[a.attempt := started];
    OneRecord(b.writes, Line(n + 1, Tried(started)));
  }

  /** The reply placed one record, and it is in the history the store has written. */
  predicate PlacesDurably(e: Reply) {
    e.record.Some? && e.placed == [Durable(e.record.value)] && e.backend.OnDisk? && PlacedBy(e.backend.writes) == e.placed
  }

  lemma CommitRoomy(b: Backend, n: nat, r: Request)
    requires Roomy(b, n) && r.digestMatches
    requires r.intent.flow != 0 && r.intent.path != 0 && r.intent.pathAuthority != 0
    ensures PlacesDurably(CommitTo(b, r))
  {
    hide CommitPlacement, CommitRecord, WellIndexed, EntryBytes, EntryOf;
    var p := NewRecord(b.session.mem, r, 1, 0);
    var line := Line(n + 1, Item.Placed(p));
    StoreLimits.FirstOfFlow(STORE, b.session, r, p);
    StoreLimits.RecordWrites(STORE, b.session, p, line);
    OneRecord(b.writes, line);
  }

  // ---- one attempt, step by step ------------------------------------------------------------------------------

  /** Where attempt 1 stands: its slot, the queue, the lock, the view and the number of records. */
  datatype Scene = Scene(slot: Slot, queue: seq<u64>, holder: Option<nat>, view: Authority, records: nat)

  /** Attempt 1 has slot i and nothing has been placed. */
  predicate At(s: State, i: nat, v: Scene) {
    && s.run == Up && s.epoch == 1 && s.authority == v.view && Roomy(s.backend, v.records) && s.placings == []
    && s.queue == v.queue && s.queueDepth == |v.queue| && s.holder == v.holder
    && HasSlot(s, i, v.slot) && Names(s, 1, i) && Indexed(s)
  }

  /** Unfinished, not cancelled, and decided for INTENT where a decision is needed. */
  predicate Underway(t: Task, v: Scene) {
    && v.slot.ask == ASK && !v.slot.terminal && !v.slot.cancelRequested && v.slot.pending.None? && v.records < 99
    && (t.Starting? || t.Marking? || t.Enqueueing? || t.Claiming? || t.Deciding? || t.Copying? || t.Redeeming?
        || t.Entering? || t.Checking? || t.Loading?)
    && (t.Copying? || t.Redeeming? || t.Loading? ==> v.slot.decision == CHOICE)
    && (t.Redeeming? ==> t.decision == CHOICE)
    && (t.Entering? ==> v.holder.None?)
    && (t.Checking? ==> v.view == VIEW || v.view == OTHER)
  }

  /** The scene after the next region of thread n. */
  function Ahead(n: nat, t: Task, v: Scene): Scene {
    if t.Starting? then v.(records := v.records + 1)
    else if t.Marking? then v.(slot := v.slot.(journalled := true))
    else if t.Enqueueing? then v.(queue := v.queue + [1])
    else if t.Claiming? then v.(slot := v.slot.(running := true, state := IsRunning))
    else if t.Deciding? then v.(slot := v.slot.(decision := CHOICE))
    else if t.Entering? then v.(holder := Some(n))
    else if t.Checking? && v.view == VIEW then v.(slot := v.slot.(crossed := true))
    else if t.Checking? then v.(holder := None)
    else v
  }

  /** Where the thread is then. */
  function NextTask(t: Task, v: Scene): Task {
    if t.Starting? then Marking(t.slot, t.queued)
    else if t.Marking? then Registered(t.slot, t.queued)
    else if t.Claiming? then Deciding(t.slot, false)
    else if t.Deciding? then if t.worker then Entering(t.slot, true) else Copying(t.slot)
    else if t.Copying? then Prepared(t.slot, CHOICE)
    else if t.Redeeming? then Entering(t.slot, false)
    else if t.Entering? then Checking(t.slot, t.worker)
    else if t.Checking? && v.view == VIEW then Loading(t.slot, t.worker)
    else if t.Checking? then Failing(t.slot, t.worker, STALE_AUTHORITY_GENERATION)
    else if t.Loading? then Appending(t.slot, t.worker, CHOICE)
    else Done
  }

  /** The region of thread n at t does what Ahead says. */
  predicate Steps(n: nat, t: Task, v: Scene, r: Turn) {
    var next := Ahead(n, t, v);
    && r.slot == next.slot && r.task == NextTask(t, v) && r.placed == [] && !r.released
    && Roomy(r.backend, next.records) && next.view == v.view
    && next.holder == (match r.lock case Same => v.holder case Take => Some(n) case Drop => None)
    && next.queue == (if r.enqueued then v.queue + [1] else v.queue)
  }

  lemma RegionSteps(c: Context, n: nat, t: Task, v: Scene)
    requires Underway(t, v) && Roomy(c.backend, v.records) && c.run == Up && c.epoch == 1 && c.authority == v.view
    ensures Steps(n, t, v, Region(c, t, v.slot, INPUT))
  {
    hide RecordAttempt, Roomy, SettleRegion, CommitDecision, WellIndexed;
    if t.Starting? {
      StartRoomy(c.backend, v.records, AttemptOf(c, v.slot, Ending(Started, OK), INPUT.clock));
      RoomyOnDisk(c.backend, v.records);
    }
  }

  lemma RoomyOnDisk(b: Backend, n: nat)
    requires Roomy(b, n)
    ensures b.OnDisk?
  {
  }

  // ---- runs, one action longer --------------------------------------------------------------------------------

  lemma {:induction false} RunsOn(s: State, a: seq<Action>, s1: State, b: Action)
    requires Runs(s, a, s1) && Enabled(s1, b)
    ensures Runs(s, a + [b], Do(s1, b))
    decreases |a|
  {
    hide Do, Enabled;
    if a == [] {
      assert [b][1..] == [];
      assert a + [b] == [b];
      assert Runs(Do(s1, b), [], Do(s1, b));
    } else {
      assert (a + [b])[0] == a[0] && (a + [b])[1..] == a[1..] + [b];
      RunsOn(Do(s, a[0]), a[1..], s1, b);
    }
  }

  /** The coordinator as it starts, with two workers and an empty store. */
  function Initial(limit: nat): State {
    FreshView();
    Coordinator.Start(limit, 2, 2, 1, 1, UNUSED)
  }

  ghost predicate Reached(limit: nat, s: State) {
    exists actions :: Runs(Initial(limit), actions, s)
  }

  lemma More(limit: nat, s: State, a: Action)
    requires Reached(limit, s) && Enabled(s, a)
    ensures Reached(limit, Do(s, a))
  {
    hide Runs, Initial, Do, Enabled;
    var actions :| Runs(Initial(limit), actions, s);
    RunsOn(Initial(limit), actions, s, a);
  }

  lemma SafeReached(limit: nat, s: State)
    requires Reached(limit, s)
    ensures Safe(s) && TableListed(s)
  {
    hide Runs, Safe, TableListed;
    var actions :| Runs(Initial(limit), actions, s);
    FreshView();
    StartSafe(limit, 2, 2, 1, 1, UNUSED);
    RunKeeps(Initial(limit), actions, s);
  }

  // ---- one region, one step ----------------------------------------------------------------------------------

  /** What a region of attempt 1 leaves alone. */
  predicate Apart(s: State, s': State, i: nat) {
    && s'.limit == s.limit && s'.capacity == s.capacity && s'.table == s.table && s'.order == s.order
    && s'.idle == s.idle && s'.active == s.active && |s'.slots| == |s.slots|
    && (forall j :: 0 <= j < |s.slots| && j != i ==> s'.slots[j] == s.slots[j])
  }

  predicate Put(a: seq<Task>, t: nat, k: Task, b: seq<Task>) {
    t < |a| && b == a[t := k]
  }

  lemma Installed(s: State, t: nat, k: Task, i: nat, v: Scene, r: Turn)
    requires At(s, i, v) && Works(s, t, k, i, v.slot) && Underway(k, v) && Steps(t, k, v, r)
    ensures var s' := Install(s, t, i, r);
            At(s', i, Ahead(t, k, v)) && Put(s.tasks, t, NextTask(k, v), s'.tasks) && Apart(s, s', i)
  {
    hide Roomy, WellIndexed;
    IndexedGo(s, t, i, r);
  }

  /** One more region of thread t, which is at k and working on attempt 1. */
  lemma Drive(limit: nat, s: State, i: nat, v: Scene, t: nat, k: Task) returns (s': State)
    requires Reached(limit, s) && At(s, i, v) && Works(s, t, k, i, v.slot) && Underway(k, v)
    ensures Reached(limit, s') && At(s', i, Ahead(t, k, v)) && Put(s.tasks, t, NextTask(k, v), s'.tasks) && Apart(s, s', i)
  {
    hide Reached, Region, Install, Ahead, NextTask, Roomy, Apart, Steps, WellIndexed, DoRegister, DoPop, DoCancel,
         DoShutdown, NoteShutdown;
    RegionSteps(ContextOf(s), t, k, v);
    Installed(s, t, k, i, v, Region(ContextOf(s), k, v.slot, INPUT));
    More(limit, s, Go(t, INPUT));
    s' := Do(s, Go(t, INPUT));
  }

  /** A worker takes attempt 1 from the front of the queue. */
  lemma Hire(limit: nat, s: State, i: nat, v: Scene, rest: seq<u64>) returns (s': State)
    requires Reached(limit, s) && At(s, i, v) && s.idle >= 1 && v.queue == [ID] + rest && !v.slot.terminal
    ensures Reached(limit, s') && At(s', i, v.(slot := v.slot.(state := IsRunning, inWorker := true), queue := rest))
    ensures s'.tasks == s.tasks + [Deciding(i, true)] && s'.idle == s.idle - 1
  {
    hide Reached, Roomy, WellIndexed, Completed, DoRegister, DoGo, DoCancel, DoShutdown;
    More(limit, s, Pop);
    s' := Do(s, Pop);
    assert ([ID] + rest)[1..] == rest;
  }

  lemma Review(limit: nat, s: State, i: nat, v: Scene, view: Authority) returns (s': State)
    requires Reached(limit, s) && At(s, i, v) && v.holder.None? && view.epoch == 1
    ensures Reached(limit, s') && At(s', i, v.(view := view)) && s'.tasks == s.tasks && Apart(s, s', i)
  {
    hide Reached, Roomy, WellIndexed, DoRegister, DoGo, DoPop, DoCancel, DoShutdown;
    More(limit, s, SetAuthority(view));
    s' := Do(s, SetAuthority(view));
  }

  /** The caller of Prepare commits what it was answered. */
  lemma Redeemed(limit: nat, s: State, i: nat, v: Scene, t: nat) returns (s': State)
    requires Reached(limit, s) && At(s, i, v) && v.slot.ask == ASK && Works(s, t, Prepared(i, CHOICE), i, v.slot)
    ensures Reached(limit, s') && At(s', i, v) && Put(s.tasks, t, Redeeming(i, CHOICE), s'.tasks) && Apart(s, s', i)
  {
    hide Reached, Roomy, WellIndexed, DoRegister, DoPop, DoCancel, DoShutdown, Region, NoteShutdown;
    More(limit, s, Go(t, INPUT));
    s' := Do(s, Go(t, INPUT));
  }

  // ---- the append --------------------------------------------------------------------------------------------------

  /** The placement of slot i is durable: it is in the history the store has written. */
  predicate Durably(s: State, i: nat) {
    s.backend.OnDisk? && exists p <- s.placings :: p.slot == i && p.record in PlacedBy(s.backend.writes)
  }

  /** Thread t is about to append for attempt 1, which has slot i and may have been ended; nothing is placed. */
  predicate AtAppend(s: State, i: nat, slot: Slot, t: nat, w: bool, n: nat) {
    Indexed(s) && Roomy(s.backend, n) && s.placings == [] && slot.ask == ASK && Works(s, t, Appending(i, w, CHOICE), i, slot)
  }

  lemma Appends(limit: nat, s: State, i: nat, slot: Slot, t: nat, w: bool, n: nat) returns (s': State)
    requires Reached(limit, s) && AtAppend(s, i, slot, t, w, n)
    ensures Reached(limit, s') && Durably(s', i) && s'.slots == s.slots
    ensures exists k :: Put(s.tasks, t, k, s'.tasks)
  {
    hide Reached, CommitTo, Placings, Roomy, WellIndexed, DoRegister, DoPop, DoCancel, DoShutdown, RegisterRegion,
         DecideRegion, SettleRegion, NoteShutdown;
    var c, k := ContextOf(s), Appending(i, w, CHOICE);
    CommitRoomy(s.backend, n, Request(INTENT, true, NoIncumbent, 7, 7, c.incarnation, ASK.expected.epoch, 0));
    var r := Region(c, k, slot, INPUT);
    More(limit, s, Go(t, INPUT));
    s' := Do(s, Go(t, INPUT));
    assert Put(s.tasks, t, r.task, s'.tasks);
    assert s'.placings == [] + Placings(s, i, r.placed);
    assert s'.placings[0].slot == i && s'.placings[0].record == r.placed[0];
    assert s'.placings[0] in s'.placings && r.placed[0] in PlacedBy(s'.backend.writes);
  }

  /** Attempt 1 has slot i, and from thread n on the threads are at ks. */
  ghost predicate Crew(limit: nat, s: State, i: nat, v: Scene, n: nat, ks: seq<Task>) {
    hide *;
    Reached(limit, s) && At(s, i, v) && |s.tasks| == n + |ks| && s.tasks[n..] == ks
  }

  predicate Has(ks: seq<Task>, j: nat, k: Task) {
    j < |ks| && ks[j] == k
  }

  /** One more region of the j-th of these threads, which is at k. */
  lemma Go1(limit: nat, s: State, i: nat, v: Scene, n: nat, ks: seq<Task>, j: nat, t: nat, k: Task)
    returns (s': State, ks': seq<Task>)
    requires Crew(limit, s, i, v, n, ks) && t == n + j && Has(ks, j, k) && SlotOf(k) == i && Underway(k, v)
    ensures Crew(limit, s', i, Ahead(t, k, v), n, ks') && Put(ks, j, NextTask(k, v), ks') && Apart(s, s', i)
  {
    hide Reached, Roomy, Underway, Ahead, NextTask, Apart, WellIndexed;
    assert s.tasks[n + j] == s.tasks[n..][j];
    s' := Drive(limit, s, i, v, t, k);
    ks' := ks[j := NextTask(k, v)];
    assert s'.tasks[n..] == ks';
  }

  /** A worker's attempt, from the decision up to the append. */
  lemma WorksUpToAppend(limit: nat, s: State, i: nat, v: Scene, n: nat, ks: seq<Task>, j: nat, t: nat)
    returns (s': State, ks': seq<Task>)
    requires Crew(limit, s, i, v, n, ks) && t == n + j && Has(ks, j, Deciding(i, true)) && Underway(Deciding(i, true), v)
    requires v.holder.None? && v.view == VIEW
    ensures Crew(limit, s', i, v.(slot := v.slot.(decision := CHOICE, crossed := true), holder := Some(t)), n, ks')
    ensures Put(ks, j, Appending(i, true, CHOICE), ks') && Apart(s, s', i)
  {
    hide Crew, Apart;
    s', ks' := Go1(limit, s, i, v, n, ks, j, t, Deciding(i, true));
    var s1, w := s', v.(slot := v.slot.(decision := CHOICE));
    s', ks' := Go1(limit, s', i, w, n, ks', j, t, Entering(i, true));
    ApartOn(s, s1, s', i);
    s1, w := s', w.(holder := Some(t));
    s', ks' := Go1(limit, s', i, w, n, ks', j, t, Checking(i, true));
    ApartOn(s, s1, s', i);
    s1, w := s', w.(slot := w.slot.(crossed := true));
    s', ks' := Go1(limit, s', i, w, n, ks', j, t, Loading(i, true));
    ApartOn(s, s1, s', i);
  }

  lemma ApartOn(s: State, s1: State, s2: State, i: nat)
    requires Apart(s, s1, i) && Apart(s1, s2, i)
    ensures Apart(s, s2, i)
  {
  }

  // ---- a commit that Await overtakes after the stop -------------------------------------------------------------

  /** Attempt 1 is the only one there has been. */
  predicate Alone(s: State, limit: nat) {
    && s.limit == limit && s.capacity == 2 && s.idle == 2 && s.active == 0 && |s.slots| == 1
    && s.table == map[1 := FIRST] && s.order == [1]
  }

  /** Attempt 1 is the only one, and its thread, at k, is the only one too. */
  ghost predicate Solo(limit: nat, s: State, v: Scene, k: Task) {
    Crew(limit, s, FIRST, v, FIRST, [k]) && Alone(s, limit)
  }

  const NEW := NewSlot(ASK)
  const DECIDED := NEW.(journalled := true, running := true, state := IsRunning, decision := CHOICE)

  /** Nothing queued, in the initial view. */
  function Unqueued(slot: Slot, holder: Option<nat>, records: nat): Scene { Scene(slot, [], holder, VIEW, records) }

  lemma Begin(limit: nat, queued: bool) returns (s: State)
    requires limit >= 1
    ensures Solo(limit, s, Unqueued(NEW, None, FIRST), Starting(FIRST, queued))
  {
    hide Reached, Roomy, WellIndexed, Reap, DoGo, DoPop, DoCancel, DoShutdown;
    Unstarted(limit);
    var s0 := Initial(limit);
    assert Admissible(s0, ASK, queued);
    assert s0.slots + [NEW] == [NEW] && s0.order + [1] == [1] && s0.tasks + [Starting(0, queued)] == [Starting(0, queued)];
    assert |map[1 := 0]| == 1;
    NothingReaped(map[1 := 0], [1], limit);
    More(limit, s0, Register(ASK, queued));
    s := Do(s0, Register(ASK, queued));
    assert s.tasks[FIRST..] == s.tasks;
  }

  lemma Unstarted(limit: nat)
    ensures Reached(limit, Initial(limit)) && Roomy(Initial(limit).backend, FIRST)
  {
    hide Do, Enabled;
    assert Runs(Initial(limit), [], Initial(limit));
  }

  lemma NothingReaped(table: map<u64, nat>, order: seq<u64>, limit: nat)
    requires |table| <= limit
    ensures forall inFlight :: Reap(Retained(table, order), inFlight, limit, FIRST) == Retained(table, order)
  {
  }

  /** One more region of the only thread. */
  lemma GoSolo(limit: nat, s: State, v: Scene, k: Task) returns (s': State)
    requires Solo(limit, s, v, k) && SlotOf(k) == FIRST && Underway(k, v)
    ensures Solo(limit, s', Ahead(FIRST, k, v), NextTask(k, v))
  {
    hide Crew, Underway, Ahead, NextTask;
    var ks: seq<Task>;
    s', ks := Go1(limit, s, FIRST, v, FIRST, [k], FIRST, FIRST, k);
    assert ks == [NextTask(k, v)];
  }

  /** Prepare, on the calling thread. */
  lemma Prepares(limit: nat) returns (s: State)
    requires limit >= 1
    ensures Solo(limit, s, Unqueued(DECIDED, None, ONE), Prepared(FIRST, CHOICE))
  {
    hide Solo;
    s := Begin(limit, false);
    s := GoSolo(limit, s, Unqueued(NEW, None, 0), Starting(0, false));
    s := GoSolo(limit, s, Unqueued(NEW, None, 1), Marking(0, false));
    var slot := NEW.(journalled := true);
    s := GoSolo(limit, s, Unqueued(slot, None, 1), Claiming(0));
    slot := slot.(running := true, state := IsRunning);
    s := GoSolo(limit, s, Unqueued(slot, None, 1), Deciding(0, false));
    s := GoSolo(limit, s, Unqueued(DECIDED, None, 1), Copying(0));
  }

  const CROSSED := DECIDED.(crossed := true)

  /** Commit, up to the append. */
  lemma CommitsUpToAppend(limit: nat) returns (s: State)
    requires limit >= 1
    ensures Solo(limit, s, Unqueued(CROSSED, Some(FIRST), ONE), Appending(FIRST, false, CHOICE))
  {
    hide Solo;
    s := Prepares(limit);
    s := SoloRedeems(limit, s);
    s := GoSolo(limit, s, Unqueued(DECIDED, None, 1), Redeeming(0, CHOICE));
    s := GoSolo(limit, s, Unqueued(DECIDED, None, 1), Entering(0, false));
    s := GoSolo(limit, s, Unqueued(DECIDED, Some(0), 1), Checking(0, false));
    s := GoSolo(limit, s, Unqueued(CROSSED, Some(0), 1), Loading(0, false));
  }

  lemma SoloRedeems(limit: nat, s: State) returns (s': State)
    requires Solo(limit, s, Unqueued(DECIDED, None, ONE), Prepared(FIRST, CHOICE))
    ensures Solo(limit, s', Unqueued(DECIDED, None, ONE), Redeeming(FIRST, CHOICE))
  {
    hide Reached, Roomy, WellIndexed;
    assert s.tasks[0] == s.tasks[0..][0];
    s' := Redeemed(limit, s, 0, Unqueued(DECIDED, None, 1), 0);
    assert s'.tasks[0..] == [Redeeming(0, CHOICE)];
  }

  /** Shutdown leaves the commit in flight alone; once the coordinator has stopped, Await gives up on it. */
  lemma Abandons(limit: nat, s: State) returns (s': State, slot: Slot)
    requires Solo(limit, s, Unqueued(CROSSED, Some(FIRST), ONE), Appending(FIRST, false, CHOICE))
    ensures Reached(limit, s') && AtAppend(s', FIRST, slot, FIRST, false, ONE) && EndedAs(s', FIRST, IsFailed)
  {
    hide Reached, Roomy, DoShutdown, WellIndexed, Waiting, DoRegister, DoGo, DoPop, DoCancel;
    assert s.tasks[0] == s.tasks[0..][0];
    More(limit, s, Shutdown(false));
    var s1 := Do(s, Shutdown(false));
    var journal := ShutdownHalts(s, false);
    ShutdownEndsCrossed(s, false, 0);
    assert !Waiting(s, [], 0) by { NoneWaits(s, 0); }
    ReachedIndexed(limit, s1);
    More(limit, s1, Action.Stop);
    var s2 := Do(s1, Action.Stop);
    More(limit, s2, Await(1));
    s' := Do(s2, Await(1));
    slot := s'.slots[0];
  }

  lemma NoneWaits(s: State, i: nat)
    ensures !Waiting(s, [], i)
  {
  }

  lemma ReachedIndexed(limit: nat, s: State)
    requires Reached(limit, s)
    ensures Indexed(s)
  {
    hide Reached, Locked, Checked, FencedPlacings, Backed, TableListed;
    SafeReached(limit, s);
  }

  /** A run from the start to this state. */
  lemma RunTo(limit: nat, s: State) returns (actions: seq<Action>)
    requires Reached(limit, s)
    ensures Runs(Initial(limit), actions, s)
  {
    hide Runs;
    actions :| Runs(Initial(limit), actions, s);
  }

  /** A run that ends with an attempt reported as failed whose placement is durable. */
  lemma FailedButDurable() returns (actions: seq<Action>, s: State)
    ensures Runs(Initial(TABLE), actions, s) && EndedAs(s, FIRST, IsFailed) && Durably(s, FIRST)
  {
    hide Runs, Initial, Reached, Durably, Solo, AtAppend;
    var slot: Slot;
    s := CommitsUpToAppend(16);
    s, slot := Abandons(16, s);
    s := Appends(16, s, 0, slot, 0, false, 1);
    actions := RunTo(16, s);
  }

  /** The thread whose checks failed ends the attempt, whatever has become of it since. */
  lemma Fences(limit: nat, s: State, i: nat, slot: Slot, t: nat, w: bool) returns (s': State)
    requires Reached(limit, s) && Works(s, t, Failing(i, w, STALE_AUTHORITY_GENERATION), i, slot) && !slot.terminal && Durably(s, i)
    ensures Reached(limit, s') && EndedAs(s', i, IsFenced) && Durably(s', i)
  {
    hide Reached, WellIndexed, DoRegister, DoPop, DoCancel, DoShutdown, RegisterRegion, DecideRegion, CommitRegion,
         NoteShutdown;
    ReachedIndexed(limit, s);
    More(limit, s, Go(t, INPUT));
    s' := Do(s, Go(t, INPUT));
    assert s.placings + Placings(s, i, []) == s.placings;
  }

  // ---- a prepared attempt committed twice ----------------------------------------------------------------------

  /** Both calls of Commit have found the prepared attempt. */
  lemma BothRedeem(limit: nat, s: State) returns (s': State)
    requires Solo(limit, s, Unqueued(DECIDED, None, ONE), Prepared(FIRST, CHOICE))
    ensures Crew(limit, s', FIRST, Unqueued(DECIDED, None, ONE), FIRST, [Redeeming(FIRST, CHOICE), Redeeming(FIRST, CHOICE)])
  {
    hide Reached, Roomy, WellIndexed, DoRegister, DoGo, DoPop, DoCancel, DoShutdown;
    assert s.tasks[0] == s.tasks[0..][0];
    More(limit, s, Copy(0));
    s' := Do(s, Copy(0));
    s' := Redeemed(limit, s', 0, Unqueued(DECIDED, None, 1), 0);
    s' := Redeemed(limit, s', 0, Unqueued(DECIDED, None, 1), 1);
    assert s'.tasks[0..] == [Redeeming(0, CHOICE), Redeeming(0, CHOICE)];
  }

  /** The first call fails its checks under a view that is then withdrawn. */
  lemma CommitsTwice() returns (s: State, ks: seq<Task>)
    ensures Crew(TABLE, s, FIRST, Unqueued(DECIDED, None, ONE), FIRST, ks)
    ensures ks == [Failing(FIRST, false, STALE_AUTHORITY_GENERATION), Entering(FIRST, false)]
  {
    hide Solo, Crew, Apart;
    s := Prepares(16);
    s := BothRedeem(16, s);
    var v := Unqueued(DECIDED, None, 1);
    s, ks := Go1(16, s, 0, v, 0, [Redeeming(0, CHOICE), Redeeming(0, CHOICE)], 0, 0, Redeeming(0, CHOICE));
    s, ks := Go1(16, s, 0, v, 0, ks, 1, 1, Redeeming(0, CHOICE));
    s := CrewReviews(16, s, 0, v, 0, ks, OTHER);
    v := v.(view := OTHER);
    s, ks := Go1(16, s, 0, v, 0, ks, 0, 0, Entering(0, false));
    s, ks := Go1(16, s, 0, v.(holder := Some(0)), 0, ks, 0, 0, Checking(0, false));
    s := CrewReviews(16, s, 0, v, 0, ks, VIEW);
  }

  lemma CrewReviews(limit: nat, s: State, i: nat, v: Scene, n: nat, ks: seq<Task>, view: Authority) returns (s': State)
    requires Crew(limit, s, i, v, n, ks) && v.holder.None? && view.epoch == 1
    ensures Crew(limit, s', i, v.(view := view), n, ks) && Apart(s, s', i)
  {
    hide Reached, At;
    s' := Review(limit, s, i, v, view);
  }

  /** The j-th thread appends for attempt 1, which another thread then reports as fenced. */
  lemma AppendsThenFenced(limit: nat, s: State, i: nat, v: Scene, n: nat, ks: seq<Task>, j: nat, m: nat, w: bool) returns (s': State)
    requires Crew(limit, s, i, v, n, ks) && Has(ks, j, Appending(i, w, CHOICE)) && v.slot.ask == ASK && !v.slot.terminal
    requires Has(ks, m, Failing(i, w, STALE_AUTHORITY_GENERATION))
    ensures Reached(limit, s') && EndedAs(s', i, IsFenced) && Durably(s', i)
  {
    hide Reached, Roomy, Durably;
    assert s.tasks[n + j] == s.tasks[n..][j] && s.tasks[n + m] == s.tasks[n..][m];
    s' := Appends(limit, s, i, v.slot, n + j, w, v.records);
    s' := Fences(limit, s', i, v.slot, n + m, w);
  }

  /** No id is used twice and nothing is queued, and still an attempt reported as fenced has a durable placement. */
  lemma CommittedTwice() returns (actions: seq<Action>, s: State)
    ensures Runs(Initial(TABLE), actions, s) && EndedAs(s, FIRST, IsFenced) && Durably(s, FIRST)
  {
    hide Runs, Initial, Reached, Durably, Crew, Apart;
    var ks: seq<Task>;
    s, ks := CommitsTwice();
    var v := Unqueued(DECIDED, None, 1);
    s, ks := Go1(16, s, 0, v, 0, ks, 1, 1, Entering(0, false));
    s, ks := Go1(16, s, 0, v.(holder := Some(1)), 0, ks, 1, 1, Checking(0, false));
    s, ks := Go1(16, s, 0, v.(holder := Some(1), slot := CROSSED), 0, ks, 1, 1, Loading(0, false));
    s := AppendsThenFenced(16, s, 0, v.(holder := Some(1), slot := CROSSED), 0, ks, 1, 0, false);
    actions := RunTo(16, s);
  }

  // ---- an attempt id used again after it was reaped -------------------------------------------------------------

  function Filler(k: u64): Ask { Ask(k, 1, EXPECTED, 0, 0) }

  /** What filling the table leaves alone: the queue still holds attempt 1, and both workers are idle. */
  predicate Stale(s: State, limit: nat) {
    && s.limit == limit && s.capacity == 2 && s.run == Up && s.epoch == 1 && s.authority == VIEW && Roomy(s.backend, 1)
    && s.queue == [1] && s.queueDepth == 1 && s.idle == 2 && s.holder.None? && s.placings == []
  }

  /** Attempt 1 was submitted, queued and cancelled; attempts 2 to k + 1 are being prepared. */
  predicate Filled(s: State, k: nat, limit: nat) {
    && Stale(s, limit) && |s.slots| == k + 1 && s.slots[0].terminal && (forall j :: 1 <= j <= k ==> !s.slots[j].terminal)
    && |s.tasks| == k + 2
    && |s.order| == |s.table| == k + 1 && s.order[0] == 1
    && (forall a: u64 :: a in s.table <==> 1 <= a <= k + 1) && (forall a <- s.table :: s.table[a] == a - 1)
  }

  /** The same once attempt 1 has been reaped. */
  predicate Full(s: State, limit: nat) {
    && Stale(s, limit) && |s.slots| == limit + 1 && (forall j :: 1 <= j <= limit ==> !s.slots[j].terminal)
    && |s.tasks| == limit + 2
    && (forall a: u64 :: a in s.table <==> 2 <= a <= limit + 1) && (forall a <- s.table :: s.table[a] == a - 1)
  }

  lemma CancelFirst(limit: nat, s: State) returns (s': State)
    requires Solo(limit, s, Scene(NEW.(journalled := true), [ID], None, VIEW, ONE), Done)
    ensures Reached(limit, s') && Filled(s', FIRST, limit)
  {
    hide Roomy, Reached, WellIndexed, DoRegister, DoGo, DoPop, DoShutdown;
    assert |s.table| == 1;
    More(limit, s, Cancel(1));
    s' := Do(s, Cancel(1));
  }

  /** The first submission: registered, queued, cancelled. */
  lemma Prologue(limit: nat) returns (s: State)
    requires limit >= 1
    ensures Reached(limit, s) && Filled(s, FIRST, limit)
  {
    hide Solo, Filled, Reached;
    s := Begin(limit, true);
    s := GoSolo(limit, s, Unqueued(NEW, None, 0), Starting(0, true));
    s := GoSolo(limit, s, Unqueued(NEW, None, 1), Marking(0, true));
    s := GoSolo(limit, s, Unqueued(NEW.(journalled := true), None, 1), Enqueueing(0));
    assert [] + [1 as u64] == [1];
    s := CancelFirst(limit, s);
  }

  /** One more attempt is admitted; nothing is reaped below the limit. */
  lemma Fill(limit: nat, s: State, k: nat, k': nat) returns (s': State)
    requires Reached(limit, s) && Filled(s, k, limit) && k' == k + 1 < limit < MAX_U64 - 1
    ensures Reached(limit, s') && Filled(s', k', limit)
  {
    hide InFlight, Roomy, Reached, WellIndexed, Reap, DoGo, DoPop, DoCancel, DoShutdown;
    ReachedIndexed(limit, s);
    var a := Filler(k + 2);
    var table := s.table[a.attempt := k + 1];
    assert |table| == |s.table| + 1;
    NothingReaped(table, s.order + [a.attempt], limit);
    More(limit, s, Register(a, false));
    s' := Do(s, Register(a, false));
  }

  lemma ReapFirst(table: map<u64, nat>, order: seq<u64>, inFlight: set<u64>, limit: nat)
    requires |table| == limit + 1 && order != [] && order[0] in table && order[0] !in inFlight
    ensures Reap(Retained(table, order), inFlight, limit, 0) == Retained(table - {order[0]}, order[1..])
  {
    var rest := table - {order[0]};
    assert rest.Keys == table.Keys - {order[0]} && |rest.Keys| == limit;
    assert |rest| == limit;
  }

  /** The attempt that fills the table beyond its limit reaps the cancelled one. */
  lemma Overflow(limit: nat, s: State, k: nat) returns (s': State)
    requires k + 1 == limit < MAX_U64 - 1 && Reached(limit, s) && Filled(s, k, limit)
    ensures Reached(limit, s') && Full(s', limit)
  {
    hide Reap, Roomy, Reached, WellIndexed, DoGo, DoPop, DoCancel, DoShutdown;
    ReachedIndexed(limit, s);
    var a := Filler(limit + 1);
    var s1 := s.(slots := s.slots + [NewSlot(a)], table := s.table[a.attempt := limit], order := s.order + [a.attempt],
                 stats := s.stats.(accepted := s.stats.accepted + 1), tasks := s.tasks + [Starting(limit, false)]);
    assert |s1.table| == |s.table| + 1;
    assert 1 in s1.table && s1.slots[s1.table[1]].terminal;
    ReapFirst(s1.table, s1.order, InFlight(s1), limit);
    More(limit, s, Register(a, false));
    s' := Do(s, Register(a, false));
    assert s' == s1.(table := s1.table - {1}, order := s1.order[1..]);
  }

  lemma {:induction false} FillUp(limit: nat, s: State, k: nat) returns (s': State)
    requires Reached(limit, s) && Filled(s, k, limit) && k < limit < MAX_U64 - 1
    ensures Reached(limit, s') && Full(s', limit)
    decreases limit - k
  {
    hide Reached, Filled, Full;
    if k + 1 < limit {
      s' := Fill(limit, s, k, k + 1);
      s' := FillUp(limit, s', k + 1);
    } else {
      s' := Overflow(limit, s, k);
    }
  }

  // ---- the second life of attempt 1 --------------------------------------------------------------------

  const HIRED := NEW.(journalled := true, state := IsRunning, inWorker := true)

  /** Attempt 1 is admitted again: everything else is in flight, so nothing is reaped. */
  lemma Again(s: State) returns (s': State)
    requires Reached(TABLE, s) && Full(s, TABLE)
    ensures Crew(TABLE, s', AGAIN, Scene(NEW, [ID], None, VIEW, ONE), CREW, [Starting(AGAIN, true)]) && s'.idle == 2
  {
    hide Reap, InFlight, Reached, Roomy, Safe, WellIndexed, TableListed, DoRegister, DoGo, DoPop, DoCancel, DoShutdown;
    SafeReached(16, s);
    ReachedIndexed(16, s);
    RegisterReaps(s, ASK, true);
    More(16, s, Register(ASK, true));
    s' := Do(s, Register(ASK, true));
    ReachedIndexed(16, s');
    assert 1 in s'.table by { StillThere(s, ASK, true); }
    assert s'.tasks[18..] == [Starting(17, true)];
  }

  /** An attempt just admitted is in flight, so it is not reaped. */
  lemma StillThere(s: State, a: Ask, queued: bool)
    requires TableListed(s) && Admissible(s, a, queued)
    ensures a.attempt in DoRegister(s, a, queued).table
  {
    hide Reap, Listed;
    var i := |s.slots|;
    var s1 := s.(slots := s.slots + [NewSlot(a)], table := s.table[a.attempt := i], order := s.order + [a.attempt],
                 stats := s.stats.(accepted := s.stats.accepted + 1), tasks := s.tasks + [Starting(i, queued)]);
    ListedGrows(s.table, s.order, a.attempt, i);
    NothingSeen(Retained(s1.table, s1.order), InFlight(s1));
    ReapKeeps(Retained(s1.table, s1.order), InFlight(s1), s.limit, 0);
  }

  /** The stale queue entry hands the new attempt 1 to a worker before its own thread has queued it. */
  lemma Reused() returns (s: State)
    ensures Crew(TABLE, s, AGAIN, Scene(HIRED, [], None, VIEW, TWO), CREW, [Enqueueing(AGAIN), Deciding(AGAIN, true)])
    ensures s.idle == 1
  {
    hide Crew, Filled, Full, Reached;
    s := Prologue(16);
    s := FillUp(16, s, 0);
    s := Again(s);
    var ks: seq<Task>;
    s, ks := Go1(16, s, 17, Scene(NEW, [1], None, VIEW, 1), 18, [Starting(17, true)], 0, 18, Starting(17, true));
    s, ks := Go1(16, s, 17, Scene(NEW, [1], None, VIEW, 2), 18, ks, 0, 18, Marking(17, true));
    assert ks == [Enqueueing(17)] && [ID] + [] == [1];
    s := CrewHires(16, s, 17, Scene(NEW.(journalled := true), [1], None, VIEW, 2), 18, ks, []);
    assert ks + [Deciding(17, true)] == [Enqueueing(17), Deciding(17, true)];
  }

  lemma CrewHires(limit: nat, s: State, i: nat, v: Scene, n: nat, ks: seq<Task>, rest: seq<u64>) returns (s': State)
    requires Crew(limit, s, i, v, n, ks) && s.idle >= 1 && v.queue == [ID] + rest && !v.slot.terminal
    ensures Crew(limit, s', i, v.(slot := v.slot.(state := IsRunning, inWorker := true), queue := rest), n, ks + [Deciding(i, true)])
    ensures s'.idle == s.idle - 1
  {
    hide Reached, At;
    s' := Hire(limit, s, i, v, rest);
  }

  /** Shutdown finds the id in the queue and reports a commit in flight as cancelled. */
  lemma Overtaken(limit: nat, s: State, i: nat, v: Scene, n: nat, ks: seq<Task>, j: nat, t: nat) returns (s': State, slot: Slot)
    requires Crew(limit, s, i, v, n, ks) && t == n + j && v.queue == [ID] && v.slot.ask == ASK && v.slot.crossed && !v.slot.terminal
    requires Has(ks, j, Appending(i, true, CHOICE))
    ensures Reached(limit, s') && AtAppend(s', i, slot, t, true, v.records) && EndedAs(s', i, IsCancelled)
  {
    hide Reached, Roomy, DoShutdown, WellIndexed, DoRegister, DoGo, DoPop, DoCancel;
    assert s.tasks[n + j] == s.tasks[n..][j];
    More(limit, s, Shutdown(false));
    s' := Do(s, Shutdown(false));
    assert 1 in s.queue;
    ShutdownEndsCrossed(s, false, i);
    var journal := ShutdownHalts(s, false);
    ReachedIndexed(limit, s');
    slot := s'.slots[i];
  }

  /**
   A run of the coordinator with its smallest table in which an id is used again after it was reaped: it
   ends with an attempt reported as cancelled whose placement is durable.
   */
  lemma CancelledButDurable() returns (actions: seq<Action>, s: State)
    ensures Runs(Initial(TABLE), actions, s) && EndedAs(s, AGAIN, IsCancelled) && Durably(s, AGAIN)
  {
    hide Runs, Crew, Initial, Reached, Durably, Apart, AtAppend;
    var ks: seq<Task>, slot: Slot;
    s := Reused();
    s, ks := WorksUpToAppend(16, s, 17, Scene(HIRED, [], None, VIEW, 2), 18, [Enqueueing(17), Deciding(17, true)], 1, 19);
    slot := HIRED.(decision := CHOICE, crossed := true);
    s, ks := Go1(16, s, 17, Scene(slot, [], Some(19), VIEW, 2), 18, ks, 0, 18, Enqueueing(17));
    assert [] + [1 as u64] == [1];
    s, slot := Overtaken(16, s, 17, Scene(slot, [1], Some(19), VIEW, 2), 18, ks, 1, 19);
    s := Appends(16, s, 17, slot, 19, true, 2);
    actions := RunTo(16, s);
  }

  /** Two workers take attempt 1; the first fails its checks under a view that is then withdrawn. */
  lemma TakenTwice() returns (s: State, ks: seq<Task>)
    ensures Crew(TABLE, s, AGAIN, Scene(HIRED.(decision := CHOICE), [], None, VIEW, TWO), CREW, ks)
    ensures ks == [Done, Failing(AGAIN, true, STALE_AUTHORITY_GENERATION), Deciding(AGAIN, true)]
  {
    hide Crew, Apart;
    s := Reused();
    s, ks := BothHired(s);
    s, ks := Go1(16, s, 17, Scene(HIRED, [], None, VIEW, 2), 18, ks, 1, 19, Deciding(17, true));
    var v := Scene(HIRED.(decision := CHOICE), [], None, VIEW, 2);
    s := CrewReviews(16, s, 17, v, 18, ks, OTHER);
    v := v.(view := OTHER);
    s, ks := Go1(16, s, 17, v, 18, ks, 1, 19, Entering(17, true));
    s, ks := Go1(16, s, 17, v.(holder := Some(19)), 18, ks, 1, 19, Checking(17, true));
    s := CrewReviews(16, s, 17, v, 18, ks, VIEW);
  }

  /** The registering thread queues the attempt and the other worker takes it. */
  lemma BothHired(s: State) returns (s': State, ks: seq<Task>)
    requires Crew(TABLE, s, AGAIN, Scene(HIRED, [], None, VIEW, TWO), CREW, [Enqueueing(AGAIN), Deciding(AGAIN, true)])
    requires s.idle == 1
    ensures Crew(TABLE, s', AGAIN, Scene(HIRED, [], None, VIEW, TWO), CREW, ks)
    ensures ks == [Done, Deciding(AGAIN, true), Deciding(AGAIN, true)]
  {
    hide Crew;
    s', ks := Go1(16, s, 17, Scene(HIRED, [], None, VIEW, 2), 18, [Enqueueing(17), Deciding(17, true)], 0, 18, Enqueueing(17));
    s' := CrewHires(16, s', 17, Scene(HIRED, [] + [1], None, VIEW, 2), 18, ks, []);
    ks := ks + [Deciding(17, true)];
  }

  /**
   The stale entry, the entry of the registering thread and a view that came and went: the run ends with an
   attempt reported as fenced whose placement is durable. No shutdown takes part.
   */
  lemma FencedButDurable() returns (actions: seq<Action>, s: State)
    ensures Runs(Initial(TABLE), actions, s) && EndedAs(s, AGAIN, IsFenced) && Durably(s, AGAIN)
  {
    hide Runs, Initial, Reached, Durably, Crew, Apart;
    var ks: seq<Task>;
    s, ks := TakenTwice();
    var v := Scene(HIRED.(decision := CHOICE), [], None, VIEW, 2);
    s, ks := WorksUpToAppend(16, s, 17, v, 18, ks, 2, 20);
    s := AppendsThenFenced(16, s, 17, v.(slot := v.slot.(crossed := true), holder := Some(20)), 18, ks, 2, 1, true);
    actions := RunTo(16, s);
  }
}
