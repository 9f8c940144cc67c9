/** What the coordinator may rely on when it journals an attempt or commits a placement. */
module CoordinatorBackend {
  import opened Bytes
  import opened Records
  import opened Recovery
  import opened StoreOps
  import opened StoreSafety
  import opened StoreRuns
  import opened StoreGuarantees
  import opened Coordinator

  function RecordsOf(b: Backend): seq<PlacementRecord> {
    match b case OnDisk(_, s, _, _) => s.mem.placements case InMemory(_, _, made) => made
  }

  /** The store holds a terminal phase of this attempt. */
  predicate HasEnded(b: Backend, attempt: u64) {
    b.OnDisk? && attempt in b.session.mem.attempts && b.session.mem.attempts[attempt].phase != Started
  }

  /** Nothing a backend held is lost. */
  ghost predicate Grows(b: Backend, b': Backend) {
    && b.OnDisk? == b'.OnDisk?
    && RecordsOf(b) <= RecordsOf(b')
    && (forall a: u64 :: HasEnded(b, a) ==> HasEnded(b', a))
  }

  // ---- the attempt journal -----------------------------------------------------------------------

  lemma {:induction false} TriedByAppend(a: seq<Write>, b: seq<Write>)
    ensures TriedBy(a + b) == TriedBy(a) + TriedBy(b)
    decreases |a|
  {
    if a == [] {
      assert a + b == b;
    } else {
      assert (a + b)[0] == a[0] && (a + b)[1..] == a[1..] + b;
      TriedByAppend(a[1..], b);
    }
  }

  lemma {:induction false} NoneTried(ws: seq<Write>)
    requires forall w <- ws :: w.Append? ==> !w.line.item.Tried?
    ensures TriedBy(ws) == []
  {
    if ws != [] {
      NoneTried(ws[1..]);
    }
  }

  lemma MaybeCompactTries(o: Options, e: Effect)
    requires WellIndexed(e.session.mem)
    ensures var r := MaybeCompact(o, e);
            && TriedBy(r.writes) == TriedBy(e.writes)
            && r.session.mem == e.session.mem.(maxSequence := r.session.mem.maxSequence)
            && (r.code == OK || r.code == NOT_RUNNING || r.code == OVERSIZE_REQUEST || r.code == STORE_GROWTH_EXCEEDED || r == e)
  {
    hide WellIndexed, MakeSnapshot;
    var c := Compact(o, e.session);
    TriedByAppend(e.writes, c.writes);
    NoneTried(c.writes);
    assert TriedBy(e.writes) + [] == TriedBy(e.writes);
  }

  lemma AttemptEffect(o: Options, s: Session, a: AttemptRecord)
    requires WellIndexed(s.mem)
    ensures var e := AppendAttempt(o, s, a);
            && e.session.mem.placements == s.mem.placements
            && ((TriedBy(e.writes) == [] && e.session.mem.attempts == s.mem.attempts)
                || (TriedBy(e.writes) == [a] && e.session.mem.attempts == s.mem.attempts[a.attempt := a]))
            && (e.code == OK ==> TriedBy(e.writes) == [a])
  {
    hide WellIndexed, MaybeCompact;
    var raw := AppendRaw(o, s, Tried(a));
    if raw.code == OK {
      var e := raw.(session := raw.session.(mem := Note(raw.session.mem, a)));
      NoteKeeps(raw.session.mem, s.mem, a);
      MaybeCompactTries(o, e);
      assert TriedBy(e.writes) == [a] + TriedBy(e.writes[1..]);
    }
  }

  /** What a reply adds to the journal: nothing, or one record of this attempt and phase, none after a terminal one. */
  predicate AddsOne(b: Backend, b': Backend, tried: seq<AttemptRecord>, attempt: u64, phase: Phase) {
    || tried == []
    || (|tried| == 1 && tried[0].attempt == attempt && tried[0].phase == phase && !HasEnded(b, attempt)
        && (phase != Started ==> HasEnded(b', attempt)))
  }

  /** One phase is journaled at most; a terminal phase never follows another, a start never follows one. */
  lemma RecordFacts(b: Backend, a: AttemptRecord)
    ensures var r := RecordAttempt(b, a);
            && Grows(b, r.backend) && r.placed == [] && AddsOne(b, r.backend, r.tried, a.attempt, a.phase)
            && (b.OnDisk? && r.code == OK ==> r.tried != [])
            && (b.InMemory? ==> r.tried == [])
  {
    hide WellIndexed, AppendAttempt;
    if b.OnDisk? {
      var o := if b.closed then b.options.(readOnly := true) else b.options;
      AttemptEffect(o, b.session, Stamp(b.session, a));
      AttemptEffect(o, b.session, Stamp(b.session, a.(phase := Started)));
      assert a.phase == Started ==> a.(phase := Started) == a;
    }
  }

  // ---- commits -----------------------------------------------------------------------------------------

  lemma RecordEffect(o: Options, s: Session, p: PlacementRecord)
    requires WellIndexed(s.mem)
    ensures var e := CommitRecord(o, s, p);
            && s.mem.placements <= e.session.mem.placements
            && e.session.mem.attempts == s.mem.attempts && TriedBy(e.writes) == []
            && (PlacedBy(e.writes) == [] || PlacedBy(e.writes) == [Durable(p)])
            && (e.record.Some? ==> e.record.value in e.session.mem.placements)
            && (e.record.None? ==> StateForFailure(e.code) == IsFailed)
  {
    hide WellIndexed, MaybeCompact;
    var raw := AppendRaw(o, s, Placed(p));
    if raw.code == OK {
      var e := raw.(session := raw.session.(mem := Index(raw.session.mem, p).(nextId := Increment(p.id))));
      assert WellIndexed(e.session.mem) by {
        Reindexed(s.mem, raw.session.mem);
        Reindexed(Index(raw.session.mem, p), e.session.mem);
      }
      MaybeCompactTries(o, e);
      MaybeCompactAdds(o, e);
      NoneTried(e.writes);
      assert PlacedBy(e.writes) == Added(e.writes[0]) + PlacedBy(e.writes[1..]);
      assert e.session.mem.placements[|s.mem.placements|] == p;
    }
  }

  lemma CommitEffect(o: Options, s: Session, r: Request)
    requires WellIndexed(s.mem)
    ensures var e := CommitPlacement(o, s, r);
            && s.mem.placements <= e.session.mem.placements
            && e.session.mem.attempts == s.mem.attempts && TriedBy(e.writes) == []
            && |PlacedBy(e.writes)| <= 1 && (forall p <- PlacedBy(e.writes) :: p.commitEpoch == r.commitEpoch)
            && (e.record.Some? ==> e.record.value in e.session.mem.placements)
            && (e.record.None? ==> StateForFailure(e.code) == IsFailed)
  {
    hide CommitRecord, SameIntent, WellIndexed;
    var m, i := s.mem, r.intent;
    if i.attempt != 0 && i.attempt in m.commits {
      InRange(m, i.attempt);
      assert m.placements[m.commits[i.attempt]] in m.placements;
    } else {
      if NextRecord(m, r).Some? {
        RecordEffect(o, s, NextRecord(m, r).value);
      }
    }
  }

  /** At most one placement, stamped with this epoch. */
  predicate PlacesOne(placed: seq<PlacementRecord>, epoch: u64) {
    |placed| <= 1 && forall p <- placed :: p.commitEpoch == epoch
  }

  /** The record answered is one the backend holds. */
  predicate Answers(b: Backend, record: Option<PlacementRecord>) {
    record.Some? ==> record.value in RecordsOf(b)
  }

  /** A commit adds one placement at most, stamped with the epoch asked for; an answer names a record held. */
  lemma CommitFacts(b: Backend, r: Request)
    ensures var e := CommitTo(b, r);
            && Grows(b, e.backend) && e.tried == []
            && PlacesOne(e.placed, r.commitEpoch) && Answers(e.backend, e.record)
            && (e.record.None? ==> StateForFailure(e.code) == IsFailed)
  {
    hide CommitPlacement, WellIndexed;
    if b.OnDisk? && !b.closed {
      CommitEffect(b.options, b.session, r);
    }
  }

  /** The same of the commit of a decision. */
  lemma DecisionFacts(c: Context, slot: Slot, d: Decision, clock: i64)
    ensures var e := CommitDecision(c, slot, d, clock);
            && Grows(c.backend, e.backend) && e.tried == []
            && PlacesOne(e.placed, slot.ask.expected.epoch) && Answers(e.backend, e.record)
            && (e.record.None? ==> StateForFailure(e.code) == IsFailed)
  {
    hide CommitTo, RecordsOf, HasEnded;
    match d.intent {
      case None =>
      case Some(intent) =>
        CommitFacts(c.backend, Request(intent, d.digestMatches, d.delta, d.digestHi, d.digestLo, c.incarnation,
                                       slot.ask.expected.epoch, clock));
    }
  }
}
