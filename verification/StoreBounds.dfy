/** Opening with any record bound: what is read, what is cut off, and exactly when the history is still shown. */
module StoreBounds {
  import opened Bytes
  import opened Records
  import opened Journal
  import opened Recovery
  import opened StoreOps
  import opened StoreViews
  import opened StoreSafety
  import opened StoreReading
  import opened StoreRuns
  import opened StoreGuarantees
  import opened StoreAcceptance

  // ---- what such an opening shows -------------------------------------------------------------------

  /** A bound below the size of a placement reads none. */
  lemma {:induction false} NoPlacements(lines: seq<Line>, limit: int, current: u64)
    requires LinesFit(lines, limit) && limit < PLACEMENT_BYTES
    ensures Applied(lines, current) == []
    decreases |lines|
  {
    if lines != [] {
      assert lines[0] in lines;
      assert forall line <- lines[1..] :: line in lines;
      var l := lines[0];
      NoPlacements(lines[1..], limit, if l.item.Reset? || l.sequence > current then l.sequence else current);
    }
  }

  /** The memory of the snapshot file alone. */
  function SnapshotMem(r: Options, d: Disk): (m: Mem)
    ensures WellIndexed(m)
  {
    FreshView();
    match d.snapshot
    case None => FRESH
    case Some(file) =>
      match ReadSnapshotFile(file, r)
      case Err(_) => FRESH
      case Ok(s) => FromSnapshot(s)
  }

  /**
   An opening that succeeds shows the whole history when its bound admits placements, and otherwise only
   what the snapshot held: whatever was placed since is not shown.
   */
  lemma OpenShowsExactly(r: Options, d: Disk, l: Ledger, log: seq<PlacementRecord>, s: Session)
    requires LedgerOk(l, log) && Represents(d, l) && Open(r, d).result == Ok(s)
    ensures WellIndexed(s.mem)
    ensures ViewOf(s.mem) == if ReadLimit(r) >= PLACEMENT_BYTES then LogView(log) else ViewOf(SnapshotMem(r, d))
  {
    hide ParseEntry, EntriesBytes, ReplayLines, FromSnapshot, SnapshotFile, ReadSnapshotFile, EntriesOf, Open,
         SnapshotPayload, OrphanCommit, SettleAttempts, LaterRecord, Torn, SnapshotReads, TailAcceptable, ViewOf, WellIndexed,
         LogView, Chain, Shape, LinesFit, DrawnFrom, AsRead, SnapshotMarked, Base;
    OpenReadsPrefix(r, d, l);
    var a := AsRead(l, ReadLimit(r));
    AsReadPrefix(l, ReadLimit(r));
    SameBase(l, a);
    ReplayView(Base(a), Base(a).maxSequence, a.lines);
    SettleView(Replayed(a).value);
    if ReadLimit(r) >= PLACEMENT_BYTES {
      AllFit(l.lines, ReadLimit(r));
      if !Continues(l) { MismatchRefused(l); }
    } else {
      AsReadFits(l, ReadLimit(r));
      NoPlacements(a.lines, ReadLimit(r), Base(a).maxSequence);
      BaseIsSnapshot(r, d, l);
    }
  }

  lemma AllFit(lines: seq<Line>, limit: int)
    requires limit >= PLACEMENT_BYTES
    ensures LinesFit(lines, limit)
  {
  }

  lemma BaseIsSnapshot(r: Options, d: Disk, l: Ledger)
    requires Represents(d, l) && Marked(l.snapshot) && SnapshotReadable(r, l.snapshot)
    ensures SnapshotMem(r, d) == Base(l)
  {
    hide EntriesBytes, FromSnapshot, SnapshotFile, ReadSnapshotFile, EntriesOf, SnapshotPayload;
    if l.snapshot.Some? {
      ReadSnapshotFileBack(l.snapshot.value, r);
    }
  }

  lemma ShowsView(m: Mem, log: seq<PlacementRecord>)
    requires WellIndexed(m) && Chain(log)
    ensures Shows(m, log) <==> ViewOf(m) == LogView(log)
  {
    hide Chain, LogView, LastOf;
    ChainIsNumbered(log);
    if ViewOf(m) == LogView(log) {
      ViewShows(m, log);
    }
    if Shows(m, log) {
      var v, w := ViewOf(m), LogView(log);
      forall f | f in v.latest ensures f in w.latest && w.latest[f] == v.latest[f] {
        assert v.latest[f] == Durable(m.placements[m.latest[f]]);
      }
      assert v.latest == w.latest;
    }
  }

  /**
   After any run, with any options whatever: opening refuses, or shows exactly the history if the bound it
   applies admits placements or the snapshot alone shows the history, and only then.
   */
  lemma AnyOptionsShow(es: seq<Event>, w: World, r: Options, s: Session)
    requires Runs(GENESIS, es, w) && w.intact && IdsLeft(w.log) && Open(r, w.disk).result == Ok(s)
    ensures Shows(s.mem, w.log) <==> ReadLimit(r) >= PLACEMENT_BYTES || Shows(SnapshotMem(r, w.disk), w.log)
  {
    hide Runs, LedgerOk, UpOk, Open, Represents, Shows, LogView, Chain, ViewOf, SnapshotMem, WellIndexed;
    GenesisSound();
    RunsSound(GENESIS, es, w);
    var l :| LedgerOk(l, w.log) && Represents(w.disk, l);
    LedgerChain(l, w.log);
    OpenShowsExactly(r, w.disk, l, w.log, s);
    ShowsView(s.mem, w.log);
    ShowsView(SnapshotMem(r, w.disk), w.log);
  }
}
