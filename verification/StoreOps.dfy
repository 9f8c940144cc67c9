/** The mutations of an open store: what they answer, what they keep, and what they make durable, in order. */
module StoreOps {
  import opened Bytes
  import opened Ordered
  import opened Records
  import opened Journal
  import opened Recovery

  // ---- durable steps ----------------------------------------------------------------

  /** What one journal record says. */
  datatype Item = Placed(placement: PlacementRecord) | Tried(attempt: AttemptRecord) | Reset(covered: u64)

  datatype Line = Line(sequence: u64, item: Item)

  function PayloadSize(i: Item): nat {
    match i case Placed(_) => PLACEMENT_BYTES case Tried(_) => ATTEMPT_BYTES case Reset(_) => 8
  }

  function PayloadOf(i: Item): (p: Payload)
    ensures |p| == PayloadSize(i)
  {
    match i
    case Placed(p) => PlacementBytes(p)
    case Tried(a) => AttemptBytes(a)
    case Reset(covered) => LE(covered, 8)
  }

  function KindOf(i: Item): Kind {
    match i case Placed(_) => PLACEMENT case Tried(_) => ATTEMPT case Reset(_) => RESET
  }

  function EntryOf(l: Line): (e: Entry)
    ensures |e.payload| == PayloadSize(l.item)
  {
    Entry(KindOf(l.item), l.sequence, PayloadOf(l.item))
  }

  /** A synced append of one record, or an atomic replacement of a whole file. */
  datatype Write = Append(line: Line) | ReplaceSnapshot(snapshot: Snapshot) | EmptyJournal

  function JournalBytes(d: Disk): seq<byte> {
    match d.journal case None => [] case Some(b) => b
  }

  function ApplyWrite(d: Disk, w: Write): Disk {
    match w
    case Append(line) => d.(journal := Some(JournalBytes(d) + EntryBytes(EntryOf(line))))
    case ReplaceSnapshot(s) => d.(snapshot := Some(SnapshotFile(s)))
    case EmptyJournal => d.(journal := Some([]))
  }

  function ApplyWrites(d: Disk, ws: seq<Write>): Disk
    decreases |ws|
  {
    if ws == [] then d else ApplyWrites(ApplyWrite(d, ws[0]), ws[1..])
  }

  /** The answer of an operation, the store after it, and its durable steps. */
  datatype Effect = Effect(code: StatusCode, session: Session, writes: seq<Write>, record: Option<PlacementRecord>)

  function Refuse(s: Session, code: StatusCode): Effect {
    Effect(code, s, [], None)
  }

  // The operations are total: on a memory whose indexes do not hold, which no run reaches, a commit is refused and a
  // snapshot holds no placements.

  // ---- appending ----------------------------------------------------------------------

  function AppendRaw(o: Options, s: Session, item: Item): (e: Effect)
    ensures e.session.mem == s.mem.(maxSequence := e.session.mem.maxSequence)
  {
    if o.readOnly then Refuse(s, NOT_RUNNING)
    else if PayloadSize(item) > o.maxRecordBytes then Refuse(s, OVERSIZE_REQUEST)
    else if s.mem.maxSequence >= o.maxTotalRecords then Refuse(s, STORE_GROWTH_EXCEEDED)
    else
      var sequence := s.mem.maxSequence + 1;
      Effect(OK, s.(mem := s.mem.(maxSequence := sequence), journalRecords := s.journalRecords + 1),
             [Append(Line(sequence, item))], None)
  }

  function AppendAttempt(o: Options, s: Session, a: AttemptRecord): (e: Effect)
    ensures WellIndexed(s.mem) ==> WellIndexed(e.session.mem)
  {
    var raw := AppendRaw(o, s, Tried(a));
    if raw.code != OK then raw
    else MaybeCompact(o, raw.(session := raw.session.(mem := Note(raw.session.mem, a))))
  }

  function Stamp(s: Session, a: AttemptRecord): AttemptRecord {
    a.(sequence := Increment(s.mem.maxSequence))
  }

  function AppendAttemptStart(o: Options, s: Session, a: AttemptRecord): (e: Effect)
    ensures WellIndexed(s.mem) ==> WellIndexed(e.session.mem)
  {
    if a.attempt in s.mem.attempts && s.mem.attempts[a.attempt].phase != Started then Refuse(s, ALREADY_EXISTS)
    else if a.attempt in s.mem.commits then Refuse(s, ALREADY_EXISTS)
    else AppendAttempt(o, s, Stamp(s, a.(phase := Started)))
  }

  function AppendAttemptTerminal(o: Options, s: Session, a: AttemptRecord): (e: Effect)
    ensures WellIndexed(s.mem) ==> WellIndexed(e.session.mem)
  {
    if a.phase == Started then Refuse(s, INVALID_ARGUMENT)
    else if a.attempt in s.mem.attempts && s.mem.attempts[a.attempt].phase != Started then Refuse(s, ALREADY_EXISTS)
    else AppendAttempt(o, s, Stamp(s, a))
  }

  /** What a commit asks for; digestMatches is the outcome of recomputing the intent digest. */
  datatype Request = Request(
    intent: Intent, digestMatches: bool, delta: Delta, digestHi: u64, digestLo: u64,
    committedBy: u64, commitEpoch: u64, unixNanos: i64)

  const MAX_U64: u64 := 0xFFFF_FFFF_FFFF_FFFF

  function Latest(m: Mem, flow: u64): Option<PlacementRecord> {
    if WellIndexed(m) && flow in m.latest then Some(m.placements[m.latest[flow]]) else None
  }

  function NewRecord(m: Mem, r: Request, generation: u64, supersedes: u64): (p: PlacementRecord)
    ensures p.id == m.nextId && p.intent == r.intent && p.sequence == Increment(m.maxSequence)
  {
    PlacementRecord(m.nextId, generation, r.intent, r.delta, r.digestHi, r.digestLo, r.committedBy, r.commitEpoch,
                    Increment(m.maxSequence), supersedes, r.unixNanos, false)
  }

  /** The record a commit writes: the next generation of its flow, unless there is none left. */
  function NextRecord(m: Mem, r: Request): (p: Option<PlacementRecord>)
    ensures p.Some? ==> p.value.id == m.nextId && p.value.intent == r.intent && p.value.sequence == Increment(m.maxSequence)
  {
    match Latest(m, r.intent.flow)
    case None => Some(NewRecord(m, r, 1, 0))
    case Some(previous) =>
      if previous.generation == MAX_U64 then None
      else Some(NewRecord(m, r, previous.generation + 1, previous.generation))
  }

  function CommitPlacement(o: Options, s: Session, r: Request): (e: Effect)
    ensures WellIndexed(s.mem) ==> WellIndexed(e.session.mem)
  {
    var m, i := s.mem, r.intent;
    if !WellIndexed(m) then Refuse(s, INTERNAL_INVARIANT_VIOLATION)
    else if i.flow == 0 || i.path == 0 || i.pathAuthority == 0 then Refuse(s, INVALID_ARGUMENT)
    else if !r.digestMatches then Refuse(s, INCONSISTENT_AUTHORITY_GENERATION)
    else if i.attempt != 0 && i.attempt in m.commits then
      var existing := m.placements[m.commits[i.attempt]];
      if SameIntent(existing.intent, i) then Refuse(s, OK).(record := Some(existing))
      else Refuse(s, DUPLICATE_ATTEMPT_CONFLICT)
    else if m.maxSequence >= o.maxTotalRecords then Refuse(s, STORE_GROWTH_EXCEEDED)
    else match NextRecord(m, r)
      case None => Refuse(s, ARITHMETIC_OVERFLOW)
      case Some(p) => CommitRecord(o, s, p)
  }

  /** The record is durable before it is indexed; a compaction that fails is reported instead of the record. */
  function CommitRecord(o: Options, s: Session, p: PlacementRecord): (e: Effect)
    ensures WellIndexed(s.mem) ==> WellIndexed(e.session.mem)
  {
    hide WellIndexed, MaybeCompact;
    var raw := AppendRaw(o, s, Placed(p));
    Reindexed(s.mem, raw.session.mem);
    if raw.code != OK then raw
    else
      var indexed := Index(raw.session.mem, p);
      var next := indexed.(nextId := Increment(p.id));
      Reindexed(indexed, next);
      var e := MaybeCompact(o, raw.(session := raw.session.(mem := next)));
      if e.code != OK then e else e.(record := Some(p))
  }

  // ---- compaction ---------------------------------------------------------------------

  function Retention(o: Options, m: Mem): u64 {
    if o.maxJournalRecords == 0 then m.maxSequence else o.maxJournalRecords
  }

  /** Attempt records older than the retention window are left out of the snapshot. */
  predicate Retained(o: Options, m: Mem, a: AttemptRecord) {
    !(m.maxSequence > Retention(o, m) && (a.sequence + Retention(o, m)) % U64_LIMIT < m.maxSequence)
  }

  function RetainedKeys(o: Options, m: Mem): (ks: set<u64>)
    ensures ks <= m.attempts.Keys && |ks| <= |m.attempts|
  {
    hide *;
    var ks := set k | k in m.attempts && Retained(o, m, m.attempts[k]);
    Fewer(ks, m.attempts.Keys);
    ks
  }

  function LatestOf(m: Mem, flow: u64): (p: PlacementRecord)
    requires WellIndexed(m) && flow in m.latest
    ensures p.requiresRevalidation && p.intent.flow == flow
  {
    Durable(m.placements[m.latest[flow]])
  }

  function LatestAll(m: Mem, flows: seq<u64>): (ps: seq<PlacementRecord>)
    requires WellIndexed(m)
    requires forall f <- flows :: f in m.latest
    ensures |ps| == |flows|
    ensures forall p <- ps :: p.requiresRevalidation
    decreases |flows|
  {
    if flows == [] then [] else [LatestOf(m, flows[0])] + LatestAll(m, flows[1..])
  }

  /** The latest placement of every flow, ascending by flow. */
  function LatestRecords(m: Mem): (ps: seq<PlacementRecord>)
    requires WellIndexed(m)
    ensures |ps| == |m.latest.Keys|
    ensures forall p <- ps :: p.requiresRevalidation
  {
    LatestAll(m, Ascending(m.latest.Keys))
  }

  /** The records of these attempts, in this order. */
  function RecordsAt(m: Mem, keys: seq<u64>): (rs: seq<AttemptRecord>)
    requires forall i :: 0 <= i < |keys| ==> keys[i] in m.attempts
    ensures |rs| == |keys| && forall i :: 0 <= i < |rs| ==> rs[i] == m.attempts[keys[i]]
  {
    seq(|keys|, i requires 0 <= i < |keys| => m.attempts[keys[i]])
  }

  /** The attempts still in the window, ascending by attempt. */
  function RetainedRecords(o: Options, m: Mem): (rs: seq<AttemptRecord>)
    ensures |rs| == |RetainedKeys(o, m)| <= |m.attempts|
  {
    hide *;
    var kept := Ascending(RetainedKeys(o, m));
    assert forall i :: 0 <= i < |kept| ==> kept[i] in kept;
    RecordsAt(m, kept)
  }

  lemma RetainedListed(o: Options, m: Mem)
    ensures var kept, rs := Ascending(RetainedKeys(o, m)), RetainedRecords(o, m);
            |rs| == |kept| && forall i :: 0 <= i < |rs| ==> kept[i] in m.attempts && rs[i] == m.attempts[kept[i]]
  {
    hide RetainedKeys, Increasing;
    var kept := Ascending(RetainedKeys(o, m));
    assert forall i :: 0 <= i < |kept| ==> kept[i] in kept;
  }

  function MakeSnapshot(o: Options, s: Session): (r: Snapshot)
    ensures forall p <- r.placements :: p.requiresRevalidation
  {
    var kept := RetainedRecords(o, s.mem);
    Snapshot(s.mem.nextId, s.mem.maxSequence, (s.retired + (|s.mem.attempts| - |kept|)) % U64_LIMIT,
             if WellIndexed(s.mem) then LatestRecords(s.mem) else [], kept)
  }

  /** The snapshot is replaced, then the journal, then the reset marker is appended. */
  function Compact(o: Options, s: Session): (e: Effect)
    ensures WellIndexed(s.mem) ==> WellIndexed(e.session.mem)
  {
    if o.readOnly then Refuse(s, NOT_RUNNING)
    else
      var replaced := [ReplaceSnapshot(MakeSnapshot(o, s)), EmptyJournal];
      var rebased := s.(mem := s.mem.(maxSequence := 0), journalRecords := 0);
      var marker := AppendRaw(o, rebased, Reset(s.mem.maxSequence));
      if marker.code != OK then Effect(marker.code, rebased, replaced, None)
      else Effect(OK, s.(mem := s.mem.(maxSequence := 1), journalRecords := 0), replaced + marker.writes, None)
  }

  /** Compaction follows an append once the journal has reached its configured length. */
  function MaybeCompact(o: Options, e: Effect): (r: Effect)
    ensures WellIndexed(e.session.mem) ==> WellIndexed(r.session.mem)
  {
    if o.readOnly || o.maxJournalRecords == 0 || e.session.journalRecords < o.maxJournalRecords then e
    else var c := Compact(o, e.session); c.(writes := e.writes + c.writes)
  }
}
