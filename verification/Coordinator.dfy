/**
 The coordinator as a state machine: every step is one region of code that runs under a lock, and
 any thread that can take a step may take the next one.
 */
module Coordinator {
  import opened Bytes
  import opened Records
  import opened Recovery
  import opened StoreOps
  import opened StoreSafety
  import opened Reaping
  import Ordered

  // ---- values -------------------------------------------------------------------------------

  /** The generations an attempt was prepared against, or the coordinator's current view of them. */
  datatype Authority = Authority(
    epoch: u64, path: u64, candidates: u64, capacity: u64, policy: u64, qos: u64, evidence: u64)

  /** A zero field of the current view is unconstrained; any other must match exactly. */
  predicate AuthorityMatches(current: Authority, expected: Authority) {
    && (current.path == 0 || current.path == expected.path)
    && (current.candidates == 0 || current.candidates == expected.candidates)
    && (current.capacity == 0 || current.capacity == expected.capacity)
    && (current.policy == 0 || current.policy == expected.policy)
    && (current.qos == 0 || current.qos == expected.qos)
    && (current.evidence == 0 || current.evidence == expected.evidence)
  }

  /** A validated placement request, as far as the coordinator looks into it. */
  datatype Ask = Ask(attempt: u64, flow: u64, expected: Authority, digestHi: u64, digestLo: u64)

  /** What the engine answered; digestMatches is the outcome of recomputing the intent's digest. */
  datatype Decision = Decision(
    placed: bool, intent: Option<Intent>, code: StatusCode, delta: Delta, digestHi: u64, digestLo: u64, digestMatches: bool)

  const UNDECIDED := Decision(false, None, OK, NoIncumbent, 0, 0, false)

  datatype AttemptState = IsQueued | IsRunning | IsCommitted | IsRejected | IsCancelled | IsFenced | IsFailed

  datatype RunState = Up | ShuttingDown | Stopped

  /** A terminal phase that came before the start record was durable. */
  datatype Ending = Ending(phase: Phase, code: StatusCode)

  datatype Slot = Slot(
    ask: Ask, terminal: bool, crossed: bool, cancelRequested: bool, running: bool, inWorker: bool,
    journalled: bool, pending: Option<Ending>,
    state: AttemptState, code: StatusCode, decision: Decision, placementId: u64, generation: u64)

  function NewSlot(a: Ask): Slot {
    Slot(a, false, false, false, false, false, false, None, IsQueued, OK, UNDECIDED, 0, 0)
  }

  function FinalizeSlot(slot: Slot, state: AttemptState, code: StatusCode): Slot {
    if slot.terminal then slot else slot.(state := state, code := code, terminal := true)
  }

  function StateForFailure(code: StatusCode): AttemptState {
    if code == CANCELLED || code == SHUTTING_DOWN then IsCancelled
    else if code == FENCED_STALE_EPOCH || code == FENCED_STALE_INCARNATION || code == STALE_AUTHORITY_GENERATION
    then IsFenced
    else IsFailed
  }

  function PhaseForState(s: AttemptState): Phase {
    match s case IsCommitted => Committed case IsCancelled => Cancelled case IsFenced => Fenced case _ => Rejected
  }

  // ---- where commits go ----------------------------------------------------------------------

  /**
   An open store and the durable steps it has taken since it was opened, or only memory. `made` lists every
   record made in memory.
   */
  datatype Place =
    | OnDisk(options: Options, session: Session, closed: bool, writes: seq<Write>)
    | InMemory(nextId: u64, latest: map<u64, PlacementRecord>, made: seq<PlacementRecord>)

  type Backend = b: Place | b.OnDisk? ==> WellIndexed(b.session.mem)
    witness InMemory(1, map[], [])

  /** An answer, and what it made durable. */
  datatype Reply = Reply(
    code: StatusCode, backend: Backend, tried: seq<AttemptRecord>, placed: seq<PlacementRecord>, record: Option<PlacementRecord>)

  function TriedBy(ws: seq<Write>): seq<AttemptRecord> {
    if ws == [] then []
    else (if ws[0].Append? && ws[0].line.item.Tried? then [ws[0].line.item.attempt] else []) + TriedBy(ws[1..])
  }

  /** The store after an operation, with its durable steps taken. */
  function After(b: Place, e: Effect): Place {
    match b
    case InMemory(_, _, _) => b
    case OnDisk(o, _, closed, ws) => OnDisk(o, e.session, closed, ws + e.writes)
  }

  /** Journals a start or a terminal phase; without a store there is nothing to journal. */
  function RecordAttempt(b: Backend, a: AttemptRecord): Reply {
    if b.InMemory? then Reply(OK, b, [], [], None)
    else
      var o := if b.closed then b.options.(readOnly := true) else b.options;
      var e := if a.phase == Started then AppendAttemptStart(o, b.session, a) else AppendAttemptTerminal(o, b.session, a);
      Reply(e.code, After(b, e), TriedBy(e.writes), [], None)
  }

  function CommitTo(b: Backend, r: Request): Reply {
    match b
    case OnDisk(o, session, closed, _) =>
      if closed then Reply(NOT_RUNNING, b, [], [], None)
      else
        var e := CommitPlacement(o, session, r);
        Reply(e.code, After(b, e), TriedBy(e.writes), PlacedBy(e.writes), e.record)
    case InMemory(nextId, latest, made) =>
      if nextId == MAX_U64 then Reply(ARITHMETIC_OVERFLOW, b, [], [], None)
      else
        var flow := r.intent.flow;
        var next := b.(nextId := nextId + 1);
        if flow in latest && latest[flow].generation == MAX_U64 then Reply(ARITHMETIC_OVERFLOW, next, [], [], None)
        else
          var before := if flow in latest then latest[flow].generation else 0;
          var p := PlacementRecord(nextId, before + 1, r.intent, r.delta, r.digestHi, r.digestLo, r.committedBy,
                                   r.commitEpoch, 0, before, r.unixNanos, false);
          Reply(OK, next.(latest := latest[flow := p], made := made + [p]), [], [p], Some(p))
  }

  // ---- threads -----------------------------------------------------------------------------------

  /** Where a thread is: the next region it will run. */
  datatype Task =
    | Done
    // RegisterAttempt, then the rest of Submit or Prepare
    | Starting(slot: nat, queued: bool)
    | Refusing(slot: nat, code: StatusCode)
    | Marking(slot: nat, queued: bool)
    | Catching(slot: nat, queued: bool, ending: Ending)
    | Enqueueing(slot: nat)
    | Claiming(slot: nat)
    // the engine, on a worker or on the caller of Prepare
    | Deciding(slot: nat, worker: bool)
    | Copying(slot: nat)
    | Prepared(slot: nat, decision: Decision)
    | Redeeming(slot: nat, decision: Decision)
    | Rejecting(slot: nat, code: StatusCode)
    // CommitSlot; from Checking to Finishing the thread holds commit_mu
    | Entering(slot: nat, worker: bool)
    | Checking(slot: nat, worker: bool)
    | Loading(slot: nat, worker: bool)
    | Appending(slot: nat, worker: bool, decision: Decision)
    | Reporting(slot: nat, worker: bool, record: PlacementRecord)
    | Journalling(slot: nat, worker: bool)
    | Finishing(slot: nat, worker: bool)
    // what follows a failure
    | Failing(slot: nat, worker: bool, code: StatusCode)
    | Noting(slot: nat, worker: bool, ending: Ending)
    | Releasing(slot: nat)
    // journaling on behalf of Cancel and Shutdown
    | CancelNoting(slot: nat)
    | ShutdownNoting(attempts: seq<u64>)

  /** The thread is inside the commit boundary. */
  predicate InBoundary(t: Task) {
    t.Checking? || t.Loading? || t.Appending? || t.Reporting? || t.Journalling? || t.Finishing?
  }

  /** A worker holds a slot. */
  predicate AtWork(t: Task) {
    || t.Rejecting? || t.Releasing?
    || ((t.Deciding? || t.Entering? || InBoundary(t) || t.Failing? || t.Noting?) && t.worker)
  }

  /** Whether the thread works on one slot. */
  predicate OnSlot(t: Task) {
    !t.Done? && !t.ShutdownNoting?
  }

  /** The slot the thread works on. */
  function SlotOf(t: Task): int {
    if OnSlot(t) then t.slot else -1
  }

  /** An admitted submission that has not reached the queue. */
  predicate Submitting(t: Task) {
    t.Enqueueing? || ((t.Starting? || t.Marking? || t.Catching?) && t.queued)
  }

  // ---- one region of one thread --------------------------------------------------------------------

  /** What a region may read besides its slot. */
  datatype Context = Context(run: RunState, epoch: u64, authority: Authority, incarnation: u64, backend: Backend)

  /** Inputs from outside: the engine's answer and the clock. */
  datatype Input = Input(decision: Decision, clock: i64)

  datatype Lock = Same | Take | Drop

  /** What a region leaves: its slot, its next region, the commit lock, the backend and what became durable. */
  datatype Turn = Turn(slot: Slot, task: Task, lock: Lock, backend: Backend, tried: seq<AttemptRecord>,
                       placed: seq<PlacementRecord>, enqueued: bool, released: bool)

  function Quiet(c: Context, slot: Slot, task: Task): Turn {
    Turn(slot, task, Same, c.backend, [], [], false, false)
  }

  function AttemptOf(c: Context, slot: Slot, e: Ending, clock: i64): AttemptRecord {
    AttemptRecord(slot.ask.attempt, c.incarnation, slot.ask.expected.epoch, slot.ask.flow, e.phase, e.code,
                  slot.ask.digestHi, slot.ask.digestLo, 0, clock)
  }

  /** Journals a phase, answers the store's code and goes on. */
  datatype Answer = Answer(code: StatusCode, turn: Turn)

  function Journaled(c: Context, slot: Slot, e: Ending, clock: i64, next: Task): Answer {
    hide *;
    var r := RecordAttempt(c.backend, AttemptOf(c, slot, e, clock));
    Answer(r.code, Quiet(c, slot, next).(backend := r.backend, tried := r.tried))
  }

  function Registered(i: nat, queued: bool): Task {
    if queued then Enqueueing(i) else Claiming(i)
  }

  function Leave(i: nat, worker: bool): Task {
    if worker then Releasing(i) else Done
  }

  /** The checks of the commit boundary, in order; OK lets the attempt cross. */
  function BoundaryCode(c: Context, slot: Slot): StatusCode {
    if slot.terminal then ALREADY_COMMITTED
    else if slot.cancelRequested then CANCELLED
    else if c.run != Up then SHUTTING_DOWN
    else if slot.ask.expected.epoch != c.epoch then FENCED_STALE_EPOCH
    else if !AuthorityMatches(c.authority, slot.ask.expected) then STALE_AUTHORITY_GENERATION
    else OK
  }

  /** Commits what was decided; a decision without an intent is refused before the store is asked. */
  function CommitDecision(c: Context, slot: Slot, d: Decision, clock: i64): Reply {
    match d.intent
    case None => Reply(INTERNAL_INVARIANT_VIOLATION, c.backend, [], [], None)
    case Some(intent) =>
      CommitTo(c.backend, Request(intent, d.digestMatches, d.delta, d.digestHi, d.digestLo, c.incarnation,
                                  slot.ask.expected.epoch, clock))
  }

  predicate Registering(t: Task) {
    t.Starting? || t.Refusing? || t.Marking? || t.Catching? || t.Enqueueing? || t.Claiming?
  }

  predicate Settling(t: Task) {
    t.Failing? || t.Noting? || t.Releasing? || t.CancelNoting?
  }

  /** The region of a thread at task t, which works on this slot. */
  function Region(c: Context, t: Task, slot: Slot, x: Input): Turn {
    hide *;
    if Registering(t) then RegisterRegion(c, t, slot, x)
    else if InBoundary(t) then CommitRegion(c, t, slot, x)
    else if Settling(t) then SettleRegion(c, t, slot, x)
    else DecideRegion(c, t, slot, x)
  }

  function RegisterRegion(c: Context, t: Task, slot: Slot, x: Input): Turn {
    if t.Starting? then
      if c.backend.InMemory? then Quiet(c, slot, Registered(t.slot, t.queued))
      else
        var r := Journaled(c, slot, Ending(Started, OK), x.clock, Done);
        r.turn.(task := if r.code == OK then Marking(t.slot, t.queued) else Refusing(t.slot, r.code))
    else if t.Refusing? then Quiet(c, FinalizeSlot(slot, IsRejected, t.code), Done)
    else if t.Marking? then
      Quiet(c, slot.(journalled := true, pending := None),
            if slot.pending.Some? then Catching(t.slot, t.queued, slot.pending.value) else Registered(t.slot, t.queued))
    else if t.Catching? then Journaled(c, slot, t.ending, x.clock, Registered(t.slot, t.queued)).turn
    else if t.Enqueueing? then
      if c.run != Up then Quiet(c, FinalizeSlot(slot, IsCancelled, SHUTTING_DOWN), Done)
      else Quiet(c, slot, Done).(enqueued := true)
    else if t.Claiming? then
      if slot.terminal then Quiet(c, slot, Done)
      else Quiet(c, slot.(running := true, state := IsRunning), Deciding(t.slot, false))
    else Quiet(c, slot, t)
  }

  function DecideRegion(c: Context, t: Task, slot: Slot, x: Input): Turn {
    if t.Deciding? then
      if !t.worker then Quiet(c, slot.(decision := x.decision), Copying(t.slot))
      else if slot.terminal then Quiet(c, slot, Releasing(t.slot))
      else Quiet(c, slot.(decision := x.decision),
                 if x.decision.placed then Entering(t.slot, true) else Rejecting(t.slot, x.decision.code))
    else if t.Copying? then Quiet(c, slot, Prepared(t.slot, slot.decision))
    else if t.Redeeming? then
      var d := t.decision;
      if slot.terminal then Quiet(c, slot, Done)
      else if !d.placed then
        Quiet(c, FinalizeSlot(slot.(decision := d), IsRejected, d.code), Noting(t.slot, false, Ending(Rejected, d.code)))
      else if slot.decision.digestHi != d.digestHi || slot.decision.digestLo != d.digestLo then Quiet(c, slot, Done)
      else Quiet(c, slot, Entering(t.slot, false))
    else if t.Rejecting? then
      Quiet(c, FinalizeSlot(slot, IsRejected, t.code), Noting(t.slot, true, Ending(Rejected, t.code)))
    else if t.Entering? then Quiet(c, slot, Checking(t.slot, t.worker)).(lock := Take)
    else Quiet(c, slot, t)
  }

  function CommitRegion(c: Context, t: Task, slot: Slot, x: Input): Turn {
    if t.Checking? then
      var code := BoundaryCode(c, slot);
      if code == OK then Quiet(c, slot.(crossed := true), Loading(t.slot, t.worker))
      else Quiet(c, slot, Failing(t.slot, t.worker, code)).(lock := Drop)
    else if t.Loading? then
      if slot.decision.intent.None? then Quiet(c, slot, Failing(t.slot, t.worker, INTERNAL_INVARIANT_VIOLATION)).(lock := Drop)
      else Quiet(c, slot, Appending(t.slot, t.worker, slot.decision))
    else if t.Appending? then
      var r := CommitDecision(c, slot, t.decision, x.clock);
      var next := if r.record.Some? then Reporting(t.slot, t.worker, r.record.value) else Failing(t.slot, t.worker, r.code);
      Turn(slot, next, if r.record.Some? then Same else Drop, r.backend, r.tried, r.placed, false, false)
    else if t.Reporting? then
      Quiet(c, slot.(placementId := t.record.id, generation := t.record.generation), Journalling(t.slot, t.worker))
    else if t.Journalling? then Journaled(c, slot, Ending(Committed, OK), x.clock, Finishing(t.slot, t.worker)).turn
    else if t.Finishing? then Quiet(c, FinalizeSlot(slot, IsCommitted, OK), Leave(t.slot, t.worker)).(lock := Drop)
    else Quiet(c, slot, t)
  }

  function SettleRegion(c: Context, t: Task, slot: Slot, x: Input): Turn {
    if t.Failing? then
      var state := StateForFailure(t.code);
      Quiet(c, FinalizeSlot(slot, state, t.code),
            if t.worker || !slot.terminal then Noting(t.slot, t.worker, Ending(PhaseForState(state), t.code)) else Done)
    else if t.Noting? then Journaled(c, slot, t.ending, x.clock, Leave(t.slot, t.worker)).turn
    else if t.Releasing? then Quiet(c, slot.(inWorker := false), Done).(released := true)
    else if t.CancelNoting? then Journaled(c, slot, Ending(Cancelled, CANCELLED), x.clock, Done).turn
    else Quiet(c, slot, t)
  }

  // ---- the whole coordinator ----------------------------------------------------------------------------

  datatype Stats = Stats(accepted: nat, completed: nat, placed: nat, rejected: nat, cancelled: nat, fenced: nat, failed: nat)

  function Completed(s: Stats, state: AttemptState): Stats {
    var t := s.(completed := s.completed + 1);
    match state
    case IsCommitted => t.(placed := t.placed + 1)
    case IsRejected => t.(rejected := t.rejected + 1)
    case IsCancelled => t.(cancelled := t.cancelled + 1)
    case IsFenced => t.(fenced := t.fenced + 1)
    case IsFailed => t.(failed := t.failed + 1)
    case _ => t
  }

  /** A placement that became durable, and what was in force when it did. */
  datatype Placing = Placing(slot: nat, record: PlacementRecord, epoch: u64, authority: Authority)

  /** `slots` are all slots ever made; `table` names those still known; `history` and `placings` are what became durable. */
  datatype State = State(
    limit: nat, capacity: nat, incarnation: u64,
    backend: Backend, run: RunState, epoch: u64, authority: Authority,
    slots: seq<Slot>, table: map<u64, nat>, order: seq<u64>, queue: seq<u64>, queueDepth: nat, active: nat, idle: nat,
    stats: Stats, tasks: seq<Task>, holder: Option<nat>, history: seq<AttemptRecord>, placings: seq<Placing>)

  /**
   Threads and ids name known slots. Every run keeps this; the functions below leave alone a state where it
   does not hold.
   */
  predicate Indexed(s: State) {
    (forall t <- s.tasks :: SlotOf(t) < |s.slots|) && TableKnown(s)
  }

  predicate TableKnown(s: State) {
    forall a <- s.table :: s.table[a] < |s.slots|
  }

  function ContextOf(s: State): Context {
    Context(s.run, s.epoch, s.authority, s.incarnation, s.backend)
  }

  /** Puts a changed slot back, counting it if it has just become terminal. */
  function PutSlot(s: State, i: nat, slot: Slot): State {
    if i >= |s.slots| then s
    else s.(slots := s.slots[i := slot],
            stats := if !s.slots[i].terminal && slot.terminal then Completed(s.stats, slot.state) else s.stats)
  }

  function Placings(s: State, i: nat, ps: seq<PlacementRecord>): (r: seq<Placing>)
    ensures |r| == |ps|
    ensures forall k :: 0 <= k < |r| ==> r[k] == Placing(i, ps[k], s.epoch, s.authority)
  {
    seq(|ps|, k requires 0 <= k < |ps| => Placing(i, ps[k], s.epoch, s.authority))
  }

  function Install(s: State, t: nat, i: nat, turn: Turn): State {
    var s1 := PutSlot(s, i, turn.slot);
    s1.(tasks := if t < |s.tasks| then s.tasks[t := turn.task] else s.tasks,
        holder := (match turn.lock case Same => s.holder case Take => Some(t) case Drop => None),
        backend := turn.backend, history := s.history + turn.tried, placings := s.placings + Placings(s, i, turn.placed),
        queue := if turn.enqueued then s.queue + [turn.slot.ask.attempt] else s.queue,
        queueDepth := if turn.enqueued then s.queueDepth + 1 else s.queueDepth,
        active := if turn.released && s.active > 0 then s.active - 1 else s.active,
        idle := if turn.released then s.idle + 1 else s.idle)
  }

  // ---- actions ----------------------------------------------------------------------------------------------

  datatype Action =
    | Register(ask: Ask, queued: bool)
    | Go(thread: nat, input: Input)
    // a copy of what Prepare answered, for another thread to commit
    | Copy(thread: nat)
    | Pop
    | Cancel(attempt: u64)
    | AdvanceEpoch
    | SetAuthority(expected: Authority)
    | Await(attempt: u64)
    | Shutdown(cancelActive: bool)
    | Stop
    | Close

  function InFlight(s: State): set<u64> {
    set a | a in s.table && s.table[a] < |s.slots| && !s.slots[s.table[a]].terminal
  }

  /** Admission: refused without a slot when shutting down, bound to another epoch, a duplicate, or over capacity. */
  predicate Admissible(s: State, a: Ask, queued: bool) {
    && s.run == Up
    && a.expected.epoch == s.epoch
    && a.attempt !in s.table
    && (queued ==> s.queueDepth < s.capacity)
  }

  function DoRegister(s: State, a: Ask, queued: bool): State {
    if !Admissible(s, a, queued) then s
    else
      var i := |s.slots|;
      var s1 := s.(slots := s.slots + [NewSlot(a)], table := s.table[a.attempt := i], order := s.order + [a.attempt],
                   stats := s.stats.(accepted := s.stats.accepted + 1), tasks := s.tasks + [Starting(i, queued)]);
      var kept := Reap(Retained(s1.table, s1.order), InFlight(s1), s.limit, 0);
      s1.(table := kept.table, order := kept.order)
  }

  function DoGo(s: State, t: nat, x: Input): State {
    if !Indexed(s) || !CanGo(s, t) then s
    else
      var task := s.tasks[t];
      assert task in s.tasks;
      if task.ShutdownNoting? then NoteShutdown(s, t, task.attempts, x.clock)
      else if task.Prepared? then Redeem(s, t, task.slot, task.decision)
      else Install(s, t, task.slot, Region(ContextOf(s), task, s.slots[task.slot], x))
  }

  /** A prepared attempt is looked up again by its id when it is committed. */
  function Redeem(s: State, t: nat, i: nat, d: Decision): State {
    if t >= |s.tasks| || i >= |s.slots| then s
    else
      var a := s.slots[i].ask.attempt;
      s.(tasks := s.tasks[t := if a in s.table then Redeeming(s.table[a], d) else Done])
  }

  /** Shutdown journals the attempts it cancelled one after another, looking each up by its id. */
  function NoteShutdown(s: State, t: nat, attempts: seq<u64>, clock: i64): State {
    if t >= |s.tasks| || !Indexed(s) then s
    else if attempts == [] then s.(tasks := s.tasks[t := Done])
    else
      var s1 := s.(tasks := s.tasks[t := ShutdownNoting(attempts[1..])]);
      if attempts[0] !in s.table then s1
      else
        var slot := s.slots[s.table[attempts[0]]];
        var r := RecordAttempt(s.backend, AttemptOf(ContextOf(s), slot, Ending(Cancelled, SHUTTING_DOWN), clock));
        s1.(backend := r.backend, history := s.history + r.tried)
  }

  predicate CanGo(s: State, t: nat) {
    t < |s.tasks| && !s.tasks[t].Done? && (s.tasks[t].Entering? ==> s.holder.None?)
  }

  predicate CanPop(s: State) {
    s.queue != [] && s.queueDepth > 0 && s.idle > 0
  }

  /** A worker takes the oldest queued id; an unknown or finished attempt is dropped. */
  function DoPop(s: State): State {
    if !Indexed(s) || !CanPop(s) then s
    else
      var id := s.queue[0];
      var s1 := s.(queue := s.queue[1..], queueDepth := s.queueDepth - 1);
      if id !in s.table then s1
      else
        var i := s.table[id];
        var slot := s.slots[i];
        if slot.terminal then s1
        else
          PutSlot(s1, i, slot.(state := IsRunning, inWorker := true)).(
            active := s.active + 1, idle := s.idle - 1, tasks := s.tasks + [Deciding(i, true)])
  }

  function CancelSlot(slot: Slot): Slot {
    var asked := slot.(cancelRequested := true);
    if slot.running || slot.inWorker then asked
    else
      var ended := FinalizeSlot(asked, IsCancelled, CANCELLED);
      if slot.journalled then ended else ended.(pending := Some(Ending(Cancelled, CANCELLED)))
  }

  /** Cancel answers Ok. */
  predicate Cancellable(s: State, attempt: u64) {
    Indexed(s) && attempt in s.table && var slot := s.slots[s.table[attempt]]; !slot.terminal && !slot.crossed
  }

  function DoCancel(s: State, attempt: u64): State {
    if !Cancellable(s, attempt) then s
    else
      var i := s.table[attempt];
      var slot := s.slots[i];
      var s1 := PutSlot(s, i, CancelSlot(slot));
      if !slot.running && !slot.inWorker && slot.journalled then s1.(tasks := s.tasks + [CancelNoting(i)]) else s1
  }

  /** The lock that keeps commits out is free. */
  predicate BoundaryFree(s: State) {
    s.holder.None?
  }

  function DoAdvanceEpoch(s: State): State {
    if s.epoch == MAX_U64 then s else s.(epoch := s.epoch + 1, authority := s.authority.(epoch := s.epoch + 1))
  }

  function DoSetAuthority(s: State, a: Authority): State {
    if a.epoch < s.epoch then s else s.(epoch := a.epoch, authority := a)
  }

  function DoAwait(s: State, attempt: u64): State {
    if Indexed(s) && attempt in s.table && s.run == Stopped
    then PutSlot(s, s.table[attempt], FinalizeSlot(s.slots[s.table[attempt]], IsFailed, SHUTTING_DOWN))
    else s
  }

  // ---- shutdown -----------------------------------------------------------------------------------------------

  /** Shutdown ends a slot; the id is journaled by the caller when the start record is durable. */
  function ShutdownSlot(slot: Slot): Slot {
    var ended := FinalizeSlot(slot.(cancelRequested := true), IsCancelled, SHUTTING_DOWN);
    if slot.journalled then ended else ended.(pending := Some(Ending(Cancelled, SHUTTING_DOWN)))
  }

  datatype Ended = Ended(state: State, journal: seq<u64>)

  /** First every queued attempt, then every attempt no worker holds and no commit has claimed. */
  predicate Ends(s: State, a: u64, queued: bool, cancelActive: bool) {
    Indexed(s) && a in s.table && var slot := s.slots[s.table[a]];
    !slot.terminal && (queued || (!slot.inWorker && !slot.crossed && (!slot.running || cancelActive)))
  }

  /** Ends the slot of this id if it is one of those to end. */
  function EndOne(e: Ended, a: u64, queued: bool, cancelActive: bool): Ended {
    if !Ends(e.state, a, queued, cancelActive) then e
    else
      var i := e.state.table[a];
      var slot := e.state.slots[i];
      Ended(PutSlot(e.state, i, ShutdownSlot(slot)), if slot.journalled then e.journal + [slot.ask.attempt] else e.journal)
  }

  function EndAll(e: Ended, ids: seq<u64>, queued: bool, cancelActive: bool): Ended
    decreases |ids|
  {
    if ids == [] then e else EndAll(EndOne(e, ids[0], queued, cancelActive), ids[1..], queued, cancelActive)
  }

  function DoShutdown(s: State, cancelActive: bool): State {
    if s.run != Up || !Indexed(s) then s
    else
      var first := EndAll(Ended(s.(run := ShuttingDown), []), s.queue, true, cancelActive);
      var emptied := Ended(first.state.(queue := [], queueDepth := 0), first.journal);
      var last := EndAll(emptied, Ordered.Ascending(s.table.Keys), false, cancelActive);
      last.state.(tasks := last.state.tasks + [ShutdownNoting(last.journal)])
  }

  // ---- runs ------------------------------------------------------------------------------------------------------

  predicate Enabled(s: State, a: Action) {
    && Indexed(s)
    && match a
       case Register(_, _) => true
       case Go(t, _) => CanGo(s, t)
       case Copy(t) => t < |s.tasks| && s.tasks[t].Prepared?
       case Pop => CanPop(s)
       case Cancel(_) => true
       case AdvanceEpoch => BoundaryFree(s)
       case SetAuthority(_) => BoundaryFree(s)
       case Await(_) => true
       case Shutdown(_) => true
       case Stop => s.run == ShuttingDown && s.active == 0
       case Close => s.run == Stopped
  }

  /** The state after a step; one that may not be taken leaves it alone. */
  function Do(s: State, a: Action): State {
    hide Region, EndAll, Reap, RecordAttempt, DoRegister, DoGo, DoPop, DoCancel, DoAwait, DoShutdown;
    if !Enabled(s, a) then s
    else
      match a
      case Register(ask, queued) => DoRegister(s, ask, queued)
      case Go(t, x) => DoGo(s, t, x)
      case Copy(t) => s.(tasks := s.tasks + [s.tasks[t]])
      case Pop => DoPop(s)
      case Cancel(attempt) => DoCancel(s, attempt)
      case AdvanceEpoch => DoAdvanceEpoch(s)
      case SetAuthority(e) => DoSetAuthority(s, e)
      case Await(attempt) => DoAwait(s, attempt)
      case Shutdown(cancelActive) => DoShutdown(s, cancelActive)
      case Stop => s.(run := Stopped)
      case Close => if s.backend.OnDisk? then s.(backend := s.backend.(closed := true)) else s
  }

  /** The coordinator as it starts: no attempts, an unconstrained view, some number of idle workers. */
  function Start(limit: nat, capacity: nat, workers: nat, epoch: u64, incarnation: u64, backend: Backend): State {
    State(limit, capacity, incarnation, backend, Up, epoch, Authority(epoch, 0, 0, 0, 0, 0, 0),
          [], map[], [], [], 0, 0, workers, Stats(0, 0, 0, 0, 0, 0, 0), [], None, [], [])
  }

  predicate Runs(s: State, actions: seq<Action>, s': State)
    decreases |actions|
  {
    hide *;
    if actions == [] then s' == s else Enabled(s, actions[0]) && Runs(Do(s, actions[0]), actions[1..], s')
  }
}
