/** The placement history a store denotes, and what replaying a journal does to it. */
module StoreViews {
  import opened Bytes
  import opened Ordered
  import opened Records
  import opened Journal
  import opened Recovery
  import opened StoreOps

  /** What a caller of the store can lose: the latest placement of each flow and the next identity. */
  datatype View = View(latest: map<u64, PlacementRecord>, nextId: u64)

  const NOTHING := View(map[], 1)

  /** The view of a memory whose indexes hold. */
  function ViewOf(m: Mem): View {
    View(if WellIndexed(m) then map f | f in m.latest :: LatestOf(m, f) else map[], m.nextId)
  }

  function Advance(v: View, p: PlacementRecord): View {
    View(v.latest[p.intent.flow := Durable(p)], if p.id >= v.nextId then Increment(p.id) else v.nextId)
  }

  function AdvanceAll(v: View, ps: seq<PlacementRecord>): View
    decreases |ps|
  {
    if ps == [] then v else AdvanceAll(Advance(v, ps[0]), ps[1..])
  }

  lemma {:induction false} AdvanceAppend(v: View, a: seq<PlacementRecord>, b: seq<PlacementRecord>)
    ensures AdvanceAll(v, a + b) == AdvanceAll(AdvanceAll(v, a), b)
    decreases |a|
  {
    if a == [] {
      assert a + b == b;
    } else {
      assert (a + b)[0] == a[0] && (a + b)[1..] == a[1..] + b;
      AdvanceAppend(Advance(v, a[0]), a[1..], b);
    }
  }

  lemma AdvanceOne(v: View, a: seq<PlacementRecord>, p: PlacementRecord)
    ensures AdvanceAll(v, a + [p]) == Advance(AdvanceAll(v, a), p)
  {
    AdvanceAppend(v, a, [p]);
    assert AdvanceAll(AdvanceAll(v, a), [p]) == AdvanceAll(Advance(AdvanceAll(v, a), p), [p][1..]);
  }

  // ---- replaying twice changes nothing ------------------------------------------------

  lemma {:induction false} AdvanceLatest(v: View, ps: seq<PlacementRecord>)
    ensures AdvanceAll(v, ps).latest == v.latest + AdvanceAll(NOTHING, ps).latest
    decreases |ps|
  {
    if ps == [] {
      assert v.latest + map[] == v.latest;
    } else {
      var f, p := ps[0].intent.flow, Durable(ps[0]);
      var tail := AdvanceAll(NOTHING, ps[1..]).latest;
      AdvanceLatest(Advance(v, ps[0]), ps[1..]);
      AdvanceLatest(Advance(NOTHING, ps[0]), ps[1..]);
      assert v.latest[f := p] + tail == v.latest + (map[f := p] + tail);
    }
  }

  lemma {:induction false} AdvanceNext(v: View, ps: seq<PlacementRecord>)
    requires forall p <- ps :: p.id < MAX_U64
    ensures AdvanceAll(v, ps).nextId >= v.nextId
    ensures forall p <- ps :: p.id < AdvanceAll(v, ps).nextId
    ensures (forall p <- ps :: p.id < v.nextId) ==> AdvanceAll(v, ps).nextId == v.nextId
    decreases |ps|
  {
    if ps != [] {
      AdvanceNext(Advance(v, ps[0]), ps[1..]);
      assert forall p <- ps :: p == ps[0] || p in ps[1..];
    }
  }

  lemma AdvanceTwice(v: View, ps: seq<PlacementRecord>)
    requires forall p <- ps :: p.id < MAX_U64
    ensures AdvanceAll(AdvanceAll(v, ps), ps) == AdvanceAll(v, ps)
  {
    var w := AdvanceAll(v, ps);
    AdvanceNext(v, ps);
    AdvanceNext(w, ps);
    AdvanceLatest(v, ps);
    AdvanceLatest(w, ps);
    var tail := AdvanceAll(NOTHING, ps).latest;
    assert (v.latest + tail) + tail == v.latest + tail;
  }

  // ---- indexes and views ----------------------------------------------------------------

  lemma LatestIndex(m: Mem, p: PlacementRecord, f: u64)
    requires WellIndexed(m) && f in Index(m, p).latest
    ensures LatestOf(Index(m, p), f) == if f == p.intent.flow then Durable(p) else LatestOf(m, f)
  {
  }

  lemma ViewIndex(m: Mem, p: PlacementRecord)
    requires WellIndexed(m)
    ensures ViewOf(Index(m, p)) == View(ViewOf(m).latest[p.intent.flow := Durable(p)], m.nextId)
  {
    hide WellIndexed, LatestOf, Durable;
    var i := Index(m, p);
    forall f | f in i.latest
      ensures LatestOf(i, f) == if f == p.intent.flow then Durable(p) else LatestOf(m, f)
    {
      LatestIndex(m, p, f);
    }
    assert ViewOf(i).latest == ViewOf(m).latest[p.intent.flow := Durable(p)];
  }

  /** The view depends on the placements, the latest index and the next identity only. */
  lemma SameView(m: Mem, n: Mem)
    requires WellIndexed(m) && WellIndexed(n)
    requires m.placements == n.placements && m.latest == n.latest
    ensures ViewOf(m).latest == ViewOf(n).latest
  {
    hide WellIndexed;
  }

  lemma {:induction false} ViewIndexAll(m: Mem, ps: seq<PlacementRecord>)
    requires WellIndexed(m)
    ensures ViewOf(IndexAll(m, ps)) == View(ViewOf(m).latest + AdvanceAll(NOTHING, ps).latest, m.nextId)
    decreases |ps|
  {
    hide Index, WellIndexed, ViewOf, Durable;
    if ps == [] {
      assert ViewOf(m).latest + map[] == ViewOf(m).latest;
      ViewNext(m);
    } else {
      ViewIndex(m, ps[0]);
      ViewIndexAll(Index(m, ps[0]), ps[1..]);
      IndexFrame(m, ps[0]);
      var f, p := ps[0].intent.flow, Durable(ps[0]);
      var tail := AdvanceAll(NOTHING, ps[1..]).latest;
      AdvanceLatest(Advance(NOTHING, ps[0]), ps[1..]);
      assert ViewOf(m).latest[f := p] + tail == ViewOf(m).latest + (map[f := p] + tail);
    }
  }

  lemma ViewNext(m: Mem)
    requires WellIndexed(m)
    ensures ViewOf(m).nextId == m.nextId
  {
    hide WellIndexed;
  }

  lemma IndexFrame(m: Mem, p: PlacementRecord)
    ensures Index(m, p).nextId == m.nextId && Index(m, p).maxSequence == m.maxSequence && Index(m, p).attempts == m.attempts
  {
  }

  lemma {:induction false} LatestAllAdvance(m: Mem, flows: seq<u64>)
    requires WellIndexed(m)
    requires forall f <- flows :: f in m.latest
    ensures AdvanceAll(NOTHING, LatestAll(m, flows)).latest == map f | f in flows :: LatestOf(m, f)
    decreases |flows|
  {
    hide WellIndexed, LatestOf;
    if flows != [] {
      var ps := LatestAll(m, flows);
      assert ps[0] == LatestOf(m, flows[0]) && ps[1..] == LatestAll(m, flows[1..]);
      LatestAllAdvance(m, flows[1..]);
      AdvanceLatest(Advance(NOTHING, ps[0]), ps[1..]);
      assert Advance(NOTHING, ps[0]).latest == map[flows[0] := LatestOf(m, flows[0])];
    }
  }

  lemma FreshView()
    ensures WellIndexed(FRESH) && ViewOf(FRESH) == NOTHING
  {
    assert ViewOf(FRESH).latest == map[];
  }

  /** A snapshot denotes the placement history of the memory it was made from. */
  lemma SnapshotView(o: Options, s: Session)
    requires WellIndexed(s.mem)
    ensures ViewOf(FromSnapshot(MakeSnapshot(o, s))) == ViewOf(s.mem)
    ensures FromSnapshot(MakeSnapshot(o, s)).maxSequence == s.mem.maxSequence
  {
    hide Ascending, IndexAll, NoteAll, RetainedRecords, AdvanceAll, WellIndexed, LatestAll, LatestOf;
    var snap := MakeSnapshot(o, s);
    var m, n := IndexAll(FRESH, snap.placements), FromSnapshot(snap);
    FreshView();
    ViewIndexAll(FRESH, snap.placements);
    LatestAllAdvance(s.mem, Ascending(s.mem.latest.Keys));
    assert ViewOf(m).latest == ViewOf(s.mem).latest;
    SameView(n, m);
  }

  // ---- replaying the lines of a journal ---------------------------------------------------

  function EntriesOf(lines: seq<Line>): (es: seq<Entry>)
    ensures |es| == |lines|
  {
    if lines == [] then [] else [EntryOf(lines[0])] + EntriesOf(lines[1..])
  }

  lemma {:induction false} EntriesOfAppend(a: seq<Line>, b: seq<Line>)
    ensures EntriesOf(a + b) == EntriesOf(a) + EntriesOf(b)
    decreases |a|
  {
    hide EntryOf;
    if a == [] {
      assert a + b == b;
    } else {
      assert (a + b)[0] == a[0] && (a + b)[1..] == a[1..] + b;
      EntriesOfAppend(a[1..], b);
    }
  }

  /** What replay does with a record, said of the record rather than of its bytes. */
  function ApplyLine(m: Mem, covered: u64, l: Line): (r: Result<Mem>)
    ensures WellIndexed(m) && r.Ok? ==> WellIndexed(r.value)
  {
    match l.item
    case Reset(c) => if c != covered then Err(STORE_CORRUPT) else Ok(m.(maxSequence := l.sequence))
    case Placed(p) =>
      if l.sequence <= m.maxSequence then Ok(m)
      else if l.sequence != m.maxSequence + 1 then Err(STORE_CORRUPT)
      else Ok(Index(m, Durable(p)).(nextId := if p.id >= m.nextId then Increment(p.id) else m.nextId,
                                    maxSequence := l.sequence))
    case Tried(a) =>
      if l.sequence <= m.maxSequence then Ok(m)
      else if l.sequence != m.maxSequence + 1 then Err(STORE_CORRUPT)
      else if a.attempt in m.attempts && m.attempts[a.attempt].phase != Started && a.phase == Started
      then Err(STORE_CORRUPT)
      else Ok(Note(m, a).(maxSequence := l.sequence))
  }

  lemma ApplyEntryOfLine(m: Mem, covered: u64, l: Line)
    ensures ApplyEntry(m, covered, EntryOf(l)) == ApplyLine(m, covered, l)
  {
    hide LE, FromLE, PlacementBytes, AttemptBytes, ReadPlacement, ReadAttempt, Index;
    match l.item {
      case Reset(c) =>
        Widths();
        FromLEInvertsLE(c, 8);
      case Placed(p) =>
        ReadPlacementBack(p, []);
        assert PlacementBytes(p) + [] == PlacementBytes(p);
      case Tried(a) =>
        ReadAttemptBack(a, []);
        assert AttemptBytes(a) + [] == AttemptBytes(a);
    }
  }

  function ReplayLines(m: Mem, covered: u64, lines: seq<Line>): (r: Result<Mem>)
    ensures WellIndexed(m) && r.Ok? ==> WellIndexed(r.value)
    decreases |lines|
  {
    if lines == [] then Ok(m)
    else match ApplyLine(m, covered, lines[0])
      case Err(code) => Err(code)
      case Ok(m') => ReplayLines(m', covered, lines[1..])
  }

  lemma {:induction false} ReplayOfLines(m: Mem, covered: u64, lines: seq<Line>)
    ensures Replay(m, covered, EntriesOf(lines)) == ReplayLines(m, covered, lines)
    decreases |lines|
  {
    hide ApplyEntry, ApplyLine, EntryOf;
    if lines != [] {
      ApplyEntryOfLine(m, covered, lines[0]);
      var es := EntriesOf(lines);
      assert es[0] == EntryOf(lines[0]) && es[1..] == EntriesOf(lines[1..]);
      var r := ApplyLine(m, covered, lines[0]);
      if r.Ok? {
        ReplayOfLines(r.value, covered, lines[1..]);
      }
    }
  }

  lemma {:induction false} ReplayLinesAppend(m: Mem, covered: u64, a: seq<Line>, b: seq<Line>)
    ensures ReplayLines(m, covered, a + b) ==
            var r := ReplayLines(m, covered, a); if r.Err? then r else ReplayLines(r.value, covered, b)
    decreases |a|
  {
    hide ApplyLine;
    if a == [] {
      assert a + b == b;
    } else {
      assert (a + b)[0] == a[0] && (a + b)[1..] == a[1..] + b;
      var r := ApplyLine(m, covered, a[0]);
      if r.Ok? {
        ReplayLinesAppend(r.value, covered, a[1..], b);
      }
    }
  }

  /** The placements replay takes from a journal when it starts at a sequence. */
  function Applied(lines: seq<Line>, current: u64): seq<PlacementRecord>
    decreases |lines|
  {
    if lines == [] then []
    else
      var l := lines[0];
      if l.item.Reset? then Applied(lines[1..], l.sequence)
      else if l.sequence <= current then Applied(lines[1..], current)
      else (if l.item.Placed? then [l.item.placement] else []) + Applied(lines[1..], l.sequence)
  }

  /** The sequence replay ends at. */
  function EndSequence(lines: seq<Line>, current: u64): u64
    decreases |lines|
  {
    if lines == [] then current
    else
      var l := lines[0];
      EndSequence(lines[1..], if l.item.Reset? || l.sequence > current then l.sequence else current)
  }

  lemma {:induction false} AppliedAppend(a: seq<Line>, b: seq<Line>, current: u64)
    ensures Applied(a + b, current) == Applied(a, current) + Applied(b, EndSequence(a, current))
    ensures EndSequence(a + b, current) == EndSequence(b, EndSequence(a, current))
    decreases |a|
  {
    if a == [] {
      assert a + b == b;
    } else {
      assert (a + b)[0] == a[0] && (a + b)[1..] == a[1..] + b;
      var l := a[0];
      AppliedAppend(a[1..], b, if l.item.Reset? || l.sequence > current then l.sequence else current);
    }
  }

  lemma ApplyLineView(m: Mem, covered: u64, l: Line)
    requires WellIndexed(m) && ApplyLine(m, covered, l).Ok?
    ensures var m' := ApplyLine(m, covered, l).value;
            && ViewOf(m') == AdvanceAll(ViewOf(m), Applied([l], m.maxSequence))
            && m'.maxSequence == EndSequence([l], m.maxSequence)
  {
    hide Index, WellIndexed;
    assert Applied([l][1..], m.maxSequence) == [] && Applied([l][1..], l.sequence) == [];
    assert EndSequence([l][1..], m.maxSequence) == m.maxSequence && EndSequence([l][1..], l.sequence) == l.sequence;
    if l.item.Placed? && l.sequence > m.maxSequence {
      var p := l.item.placement;
      ViewIndex(m, Durable(p));
      AdvanceOne(ViewOf(m), [], p);
      assert [] + [p] == [p];
      SameView(ApplyLine(m, covered, l).value, Index(m, Durable(p)));
    } else {
      SameView(ApplyLine(m, covered, l).value, m);
    }
  }

  /** Whenever replay accepts a journal, it folds exactly the placements it took into the view. */
  lemma {:induction false} ReplayView(m: Mem, covered: u64, lines: seq<Line>)
    requires WellIndexed(m) && ReplayLines(m, covered, lines).Ok?
    ensures var m' := ReplayLines(m, covered, lines).value;
            && ViewOf(m') == AdvanceAll(ViewOf(m), Applied(lines, m.maxSequence))
            && m'.maxSequence == EndSequence(lines, m.maxSequence)
    decreases |lines|
  {
    hide ApplyLine, ViewOf, Advance;
    if lines != [] {
      var m1 := ApplyLine(m, covered, lines[0]).value;
      ApplyLineView(m, covered, lines[0]);
      ReplayView(m1, covered, lines[1..]);
      assert lines == [lines[0]] + lines[1..];
      AppliedAppend([lines[0]], lines[1..], m.maxSequence);
      AdvanceAppend(ViewOf(m), Applied([lines[0]], m.maxSequence), Applied(lines[1..], m1.maxSequence));
    }
  }
}
