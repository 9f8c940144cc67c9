/** Opening what the files hold with any options: what is read, and what counts as a torn tail. */
module StoreReading {
  import opened Bytes
  import opened Records
  import opened Journal
  import opened Recovery
  import opened StoreOps
  import opened StoreViews
  import opened StoreSafety

  // ---- opening, in terms of records ---------------------------------------------------------

  predicate SnapshotReadable(r: Options, s: Option<Snapshot>) {
    s.Some? ==> SnapshotReads(s.value, r)
  }

  ghost predicate TailAcceptable(r: Options, torn: seq<byte>) {
    torn == [] || (!LaterRecord(torn, ReadLimit(r)) && (r.readOnly || r.repairTornTail))
  }

  /** The replay of these lines on this snapshot. */
  function Replayed(l: Ledger): Result<Mem> {
    ReplayLines(Base(l), Base(l).maxSequence, l.lines)
  }

  /** The snapshot can be read, the records replay, the tail may be dropped and every acknowledged attempt is accounted for. */
  ghost predicate Accepts(r: Options, s: Option<Snapshot>, replayed: Result<Mem>, torn: seq<byte>) {
    SnapshotReadable(r, s) && replayed.Ok? && TailAcceptable(r, torn) && !OrphanCommit(replayed.value)
  }

  /** The opening succeeds exactly when that holds, and then shows what was replayed. */
  ghost predicate OpensOn(r: Options, opening: Opening, s: Option<Snapshot>, replayed: Result<Mem>, torn: seq<byte>) {
    && (opening.result.Ok? <==> Accepts(r, s, replayed, torn))
    && (opening.result.Ok? && replayed.Ok? ==> opening.result.value.mem == SettleAttempts(replayed.value))
  }

  /** A reader with this bound sees the ledger as it is. */
  predicate Readable(l: Ledger, limit: u32) {
    LinesFit(l.lines, limit) && ParseEntry(l.torn, limit).Short?
  }

  predicate Marked(s: Option<Snapshot>) {
    s.Some? ==> SnapshotMarked(s.value)
  }

  lemma OpenExactly(r: Options, d: Disk, l: Ledger)
    requires Represents(d, l) && Marked(l.snapshot) && Readable(l, ReadLimit(r))
    ensures OpensOn(r, Open(r, d), l.snapshot, Replayed(l), l.torn)
  {
    hide ParseEntry, EntriesBytes, ReplayLines, FromSnapshot, SnapshotFile, ReadSnapshotFile, EntriesOf, LoadJournal,
         SnapshotPayload, LinesFit, OrphanCommit, SettleAttempts, LaterRecord, SnapshotReads;
    if l.snapshot.Some? {
      ReadSnapshotFileBack(l.snapshot.value, r);
    }
    LoadOfLedger(r, d, l);
    LoadTail(r, d, l);
  }

  lemma LoadTail(r: Options, d: Disk, l: Ledger)
    requires Represents(d, l) && Readable(l, ReadLimit(r))
    ensures Replayed(l).Ok? ==> (LoadJournal(r, Base(l), d).result.Ok? <==> TailAcceptable(r, l.torn))
  {
    hide ParseEntry, EntriesBytes, ReplayLines, Replay, FromSnapshot, SnapshotFile, EntriesOf, LinesFit, LaterRecord, Scan;
    var m := Base(l);
    ReplayOfLines(m, m.maxSequence, l.lines);
    if d.journal.Some? {
      ScanOfLedger(ReadLimit(r), l, d.journal.value);
    }
  }

  // ---- the record bound ------------------------------------------------------------------------

  /** A written record is read back exactly when its payload is within the bound the reader applies. */
  lemma ReadBackExactly(limit: u32, line: Line, rest: seq<byte>)
    ensures ParseEntry(EntryBytes(EntryOf(line)) + rest, limit).Got? <==> PayloadSize(line.item) <= limit
  {
    hide ParseEntry, EntryBytes;
    var s := EntryBytes(EntryOf(line)) + rest;
    if ParseEntry(s, limit).Got? {
      SameLength(EntryOf(line), rest, limit);
    } else if PayloadSize(line.item) <= limit {
      ParseEntryBack(EntryOf(line), rest, limit);
    }
  }

  lemma SameLength(e: Entry, rest: seq<byte>, limit: u32)
    requires ParseEntry(EntryBytes(e) + rest, limit).Got?
    ensures |e.payload| <= limit
  {
    hide Crc32c.Crc, LE, FromLE, HeaderOf;
    HeaderFields(e);
    assert (EntryBytes(e) + rest)[..28] == HeaderOf(e);
  }

  /** The place of the first record larger than a bound. */
  function FirstUnread(lines: seq<Line>, limit: u32): (n: nat)
    ensures n <= |lines| && LinesFit(lines[..n], limit)
    ensures n < |lines| ==> PayloadSize(lines[n].item) > limit
  {
    if lines == [] || PayloadSize(lines[0].item) > limit then 0
    else
      var n := FirstUnread(lines[1..], limit);
      assert lines[..n + 1] == [lines[0]] + lines[1..][..n];
      n + 1
  }

  /** The ledger as a reader with this bound finds it: from the first record it cannot read on, torn bytes. */
  function AsRead(l: Ledger, limit: u32): Ledger {
    var n := FirstUnread(l.lines, limit);
    l.(lines := l.lines[..n], torn := EntriesBytes(EntriesOf(l.lines[n..])) + l.torn)
  }

  lemma AsReadRepresents(d: Disk, l: Ledger, limit: u32)
    requires Represents(d, l)
    ensures Represents(d, AsRead(l, limit))
  {
    hide EntriesBytes, EntriesOf, SnapshotFile;
    var n := FirstUnread(l.lines, limit);
    assert l.lines == l.lines[..n] + l.lines[n..];
    EntriesOfAppend(l.lines[..n], l.lines[n..]);
    EntriesBytesAppend(EntriesOf(l.lines[..n]), EntriesOf(l.lines[n..]));
    NoBytes(l.lines[n..]);
  }

  lemma AsReadTorn(l: Ledger, limit: u32)
    requires Torn(l.torn)
    ensures ParseEntry(AsRead(l, limit).torn, limit).Short?
  {
    hide ParseEntry, EntryBytes, EntryOf, EntriesBytes;
    var n := FirstUnread(l.lines, limit);
    if n < |l.lines| {
      var rest := l.lines[n..];
      FrontBytes(rest);
      var tail := EntriesBytes(EntriesOf(rest[1..])) + l.torn;
      assert AsRead(l, limit).torn == EntryBytes(EntryOf(rest[0])) + tail;
      ReadBackExactly(limit, rest[0], tail);
    } else {
      NoBytes(l.lines[n..]);
      assert AsRead(l, limit).torn == l.torn;
      TornIsShort(l.torn, limit);
    }
  }

  lemma FrontBytes(lines: seq<Line>)
    requires lines != []
    ensures EntriesBytes(EntriesOf(lines)) == EntryBytes(EntryOf(lines[0])) + EntriesBytes(EntriesOf(lines[1..]))
  {
    hide EntryBytes, EntryOf;
    var es := EntriesOf(lines);
    assert es[0] == EntryOf(lines[0]) && es[1..] == EntriesOf(lines[1..]);
  }

  /**
   Opening with any options at all: the records up to the first that exceeds the bound are replayed, and
   everything from there on counts as a torn tail. It is refused when it holds a later record or may not
   be dropped, and otherwise cut off.
   */
  lemma OpenReadsPrefix(r: Options, d: Disk, l: Ledger)
    requires Represents(d, l) && Marked(l.snapshot) && Torn(l.torn)
    ensures var a := AsRead(l, ReadLimit(r));
            && OpensOn(r, Open(r, d), l.snapshot, Replayed(a), a.torn)
            && Leaves(r, d, a) && (a.lines == l.lines <==> LinesFit(l.lines, ReadLimit(r)))
  {
    hide ParseEntry, EntriesBytes, ReplayLines, FromSnapshot, SnapshotFile, ReadSnapshotFile, EntriesOf, LoadJournal, Represents,
         SnapshotPayload, Torn, OpensOn, SnapshotMarked, Leaves, Open;
    var a := AsRead(l, ReadLimit(r));
    AsReadRepresents(d, l, ReadLimit(r));
    AsReadTorn(l, ReadLimit(r));
    OpenExactly(r, d, a);
    OpenLeaves(r, d, a);
    assert l.lines[..|l.lines|] == l.lines;
  }

  /** Opening leaves the files alone or cuts the torn tail off; for append it cuts it off if it succeeds. */
  ghost predicate Leaves(r: Options, d: Disk, a: Ledger) {
    var opening := Open(r, d);
    && (opening.disk == d || (!r.readOnly && Represents(opening.disk, a.(torn := []))))
    && (opening.result.Ok? && !r.readOnly ==> Represents(opening.disk, a.(torn := [])))
  }

  lemma OpenLeaves(r: Options, d: Disk, a: Ledger)
    requires Represents(d, a) && Marked(a.snapshot) && Readable(a, ReadLimit(r))
    ensures Leaves(r, d, a)
  {
    hide ParseEntry, EntriesBytes, ReplayLines, FromSnapshot, SnapshotFile, ReadSnapshotFile, EntriesOf, LoadJournal,
         SnapshotPayload, OrphanCommit, SettleAttempts, LaterRecord, SnapshotReads, LinesFit;
    if a.snapshot.Some? {
      ReadSnapshotFileBack(a.snapshot.value, r);
    }
    LoadOfLedger(r, d, a);
    var loaded := LoadJournal(r, Base(a), d);
    if loaded.result.Ok? && !r.readOnly {
      EmptyJournalRepresents(loaded.disk, a.(torn := []));
    }
  }

  lemma SameBase(l: Ledger, l': Ledger)
    requires l'.snapshot == l.snapshot
    ensures Base(l') == Base(l)
  {
  }

  lemma AsReadFits(l: Ledger, limit: u32)
    ensures LinesFit(AsRead(l, limit).lines, limit)
  {
    hide LinesFit;
  }

  lemma AsReadPrefix(l: Ledger, limit: u32)
    ensures AsRead(l, limit).lines <= l.lines && AsRead(l, limit).snapshot == l.snapshot
  {
  }

  // ---- reading everything --------------------------------------------------------------------------

  /** The records that are whole on disk, whatever bound a reader applies. */
  function WholeEntries(d: Disk): seq<Entry> {
    Scan(JournalBytes(d), PLACEMENT_BYTES).entries
  }

  /** A store with these options reads every record that is whole on disk. */
  predicate ReadsAll(o: Options, d: Disk) {
    Scan(JournalBytes(d), ReadLimit(o)).entries == WholeEntries(d)
  }

  lemma WholeIsLines(d: Disk, l: Ledger)
    requires Represents(d, l) && Torn(l.torn)
    ensures WholeEntries(d) == EntriesOf(l.lines)
    ensures JournalBytes(d) == EntriesBytes(EntriesOf(l.lines)) + l.torn
  {
    hide EntriesBytes, EntriesOf, Scan, ParseEntry, Torn, SnapshotFile;
    NoBytes(l.lines);
    TornIsShort(l.torn, PLACEMENT_BYTES);
    ScanOfLedger(PLACEMENT_BYTES, l, JournalBytes(d));
  }

  lemma ReadsAllExactly(o: Options, d: Disk, l: Ledger)
    requires Represents(d, l) && Torn(l.torn)
    ensures ReadsAll(o, d) <==> LinesFit(l.lines, ReadLimit(o))
  {
    hide EntriesBytes, EntriesOf, Scan, ParseEntry, Torn, AsRead, LinesFit, Represents;
    var a := AsRead(l, ReadLimit(o));
    WholeIsLines(d, l);
    AsReadRepresents(d, l, ReadLimit(o));
    AsReadTorn(l, ReadLimit(o));
    AsReadFits(l, ReadLimit(o));
    AsReadBytes(d, a);
    ScanOfLedger(ReadLimit(o), a, JournalBytes(d));
    AsReadWhole(l, ReadLimit(o));
  }

  lemma AsReadBytes(d: Disk, l: Ledger)
    requires Represents(d, l)
    ensures JournalBytes(d) == EntriesBytes(EntriesOf(l.lines)) + l.torn
  {
    hide EntriesBytes, EntriesOf, SnapshotFile;
    NoBytes(l.lines);
  }

  lemma AsReadWhole(l: Ledger, limit: u32)
    ensures |AsRead(l, limit).lines| == |l.lines| <==> LinesFit(l.lines, limit)
    ensures LinesFit(l.lines, limit) ==> AsRead(l, limit).lines == l.lines
  {
    assert l.lines[..|l.lines|] == l.lines;
  }
}
