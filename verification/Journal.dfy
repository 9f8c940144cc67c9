/** The framing of journal records, the scan that reads them back, and the classification of damage. */
module Journal {
  import opened Bytes
  import opened Crc32c

  const HEADER_BYTES := 28
  const OVERHEAD := 36
  const RECORD_MAGIC: u32 := 0x4352_5046
  const RECORD_END_MAGIC: u32 := 0x444E_4546
  const STORE_FORMAT_VERSION: u32 := 1

  /** 1 = placement, 2 = attempt, 3 = journal reset. */
  type Kind = k: int | 1 <= k <= 3 witness 1
  const PLACEMENT: Kind := 1
  const ATTEMPT: Kind := 2
  const RESET: Kind := 3

  type Payload = p: seq<byte> | |p| < 0x1_0000_0000 witness []

  datatype Entry = Entry(kind: Kind, sequence: u64, payload: Payload)

  // ---- layout ----------------------------------------------------------------------

  function HeaderOf(e: Entry): (h: seq<byte>)
    ensures |h| == HEADER_BYTES
  {
    LE(RECORD_MAGIC, 4) + LE(STORE_FORMAT_VERSION, 4) + LE(e.kind, 2) + LE(0, 2) + LE(e.sequence, 8)
    + LE(|e.payload|, 4) + LE(Crc(e.payload), 4)
  }

  function EntryBytes(e: Entry): (b: seq<byte>)
    ensures |b| == OVERHEAD + |e.payload|
  {
    HeaderOf(e) + e.payload + LE(Crc(HeaderOf(e) + e.payload), 4) + LE(RECORD_END_MAGIC, 4)
  }

  /** The header checks, with the configured bound narrowed to 32 bits by the caller. */
  predicate HeaderOk(h: seq<byte>, limit: u32)
    requires |h| == HEADER_BYTES
  {
    && FromLE(h[..4]) == RECORD_MAGIC
    && FromLE(h[4..8]) == STORE_FORMAT_VERSION
    && 1 <= FromLE(h[8..10]) <= 3
    && FromLE(h[10..12]) == 0
    && FromLE(h[20..24]) <= limit
  }

  /** Reads the record at the front of s; Short means the bytes there are damaged. */
  function ParseEntry(s: seq<byte>, limit: u32): (p: Parsed<Entry>)
    ensures p.Got? ==> |s| == OVERHEAD + |p.value.payload| + |p.rest| && |p.value.payload| <= limit
  {
    if |s| < HEADER_BYTES || !HeaderOk(s[..28], limit) then Short
    else
      var h := s[..28];
      var length := FromLE(h[20..24]);
      if |s| < OVERHEAD + length then Short
      else
        var payload: Payload := s[28..28 + length];
        var trailer := s[28 + length..36 + length];
        if FromLE(trailer[4..]) != RECORD_END_MAGIC || Crc(payload) != FromLE(h[24..28])
           || Crc(h + payload) != FromLE(trailer[..4]) then Short
        else
          Narrow(h[12..20]);
          Got(Entry(FromLE(h[8..10]), FromLE(h[12..20]), payload), s[36 + length..])
  }

  lemma HeaderFields(e: Entry)
    ensures var h := HeaderOf(e);
            && FromLE(h[..4]) == RECORD_MAGIC && FromLE(h[4..8]) == STORE_FORMAT_VERSION && FromLE(h[8..10]) == e.kind
            && FromLE(h[10..12]) == 0 && FromLE(h[12..20]) == e.sequence && FromLE(h[20..24]) == |e.payload|
            && FromLE(h[24..28]) == Crc(e.payload)
  {
    hide Crc, LE, FromLE;
    Widths();
    FromLEInvertsLE(RECORD_MAGIC, 4);
    FromLEInvertsLE(STORE_FORMAT_VERSION, 4);
    FromLEInvertsLE(e.kind, 2);
    FromLEInvertsLE(0, 2);
    FromLEInvertsLE(e.sequence, 8);
    FromLEInvertsLE(|e.payload|, 4);
    FromLEInvertsLE(Crc(e.payload), 4);
    var h := HeaderOf(e);
    assert h[..4] == LE(RECORD_MAGIC, 4) && h[4..8] == LE(STORE_FORMAT_VERSION, 4) && h[8..10] == LE(e.kind, 2);
    assert h[10..12] == LE(0, 2) && h[12..20] == LE(e.sequence, 8) && h[20..24] == LE(|e.payload|, 4);
    assert h[24..28] == LE(Crc(e.payload), 4);
  }

  lemma ParseEntryBack(e: Entry, rest: seq<byte>, limit: u32)
    requires |e.payload| <= limit
    ensures ParseEntry(EntryBytes(e) + rest, limit) == Got(e, rest)
  {
    hide Crc, LE, FromLE, HeaderOf;
    HeaderFields(e);
    Widths();
    var h, n := HeaderOf(e), |e.payload|;
    var crc := Crc(h + e.payload);
    FromLEInvertsLE(crc, 4);
    FromLEInvertsLE(RECORD_END_MAGIC, 4);
    var s := EntryBytes(e) + rest;
    assert s[..28] == h && s[28..28 + n] == e.payload && s[36 + n..] == rest;
    var trailer := s[28 + n..36 + n];
    assert trailer == LE(crc, 4) + LE(RECORD_END_MAGIC, 4);
    assert trailer[..4] == LE(crc, 4) && trailer[4..] == LE(RECORD_END_MAGIC, 4);
  }

  /** Only encodings parse: the bytes consumed are exactly those of the record read. */
  lemma ParseEntryCanonical(s: seq<byte>, limit: u32)
    requires ParseEntry(s, limit).Got?
    ensures EntryBytes(ParseEntry(s, limit).value) + ParseEntry(s, limit).rest == s
  {
    hide Crc, LE, FromLE;
    var p := ParseEntry(s, limit);
    var e, n := p.value, |p.value.payload|;
    var h, trailer := s[..28], s[28 + n..36 + n];
    LEInvertsFromLE(h[..4]);
    LEInvertsFromLE(h[4..8]);
    LEInvertsFromLE(h[8..10]);
    LEInvertsFromLE(h[10..12]);
    LEInvertsFromLE(h[12..20]);
    LEInvertsFromLE(h[20..24]);
    LEInvertsFromLE(h[24..28]);
    LEInvertsFromLE(trailer[..4]);
    LEInvertsFromLE(trailer[4..]);
    assert h == h[..4] + h[4..8] + h[8..10] + h[10..12] + h[12..20] + h[20..24] + h[24..28];
    assert h == HeaderOf(e);
    assert trailer == trailer[..4] + trailer[4..];
    assert s == h + s[28..28 + n] + trailer + s[36 + n..];
  }

  lemma ParseEntryStable(s: seq<byte>, more: seq<byte>, limit: u32)
    requires ParseEntry(s, limit).Got?
    ensures ParseEntry(s + more, limit) == Got(ParseEntry(s, limit).value, ParseEntry(s, limit).rest + more)
  {
    hide ParseEntry, EntryBytes;
    var p := ParseEntry(s, limit);
    ParseEntryCanonical(s, limit);
    assert s + more == EntryBytes(p.value) + (p.rest + more);
    ParseEntryBack(p.value, p.rest + more, limit);
  }

  /** A record cut short anywhere no longer parses. */
  lemma CutEntryIsDamage(e: Entry, n: nat, limit: u32)
    requires n < |EntryBytes(e)| && |e.payload| <= limit
    ensures ParseEntry(EntryBytes(e)[..n], limit).Short?
  {
    hide ParseEntry, EntryBytes;
    var cut, more := EntryBytes(e)[..n], EntryBytes(e)[n..];
    if ParseEntry(cut, limit).Got? {
      ParseEntryStable(cut, more, limit);
      assert cut + more == EntryBytes(e) + [];
      ParseEntryBack(e, [], limit);
    }
  }

  /** What parses under a bound parses to the same record under a larger one. */
  lemma ParseEntryRoomier(s: seq<byte>, small: u32, large: u32)
    requires small <= large && ParseEntry(s, small).Got?
    ensures ParseEntry(s, large) == ParseEntry(s, small)
  {
    hide Crc, FromLE;
  }

  /** A record cut short parses under no bound at all. */
  lemma CutEntryNeverParses(e: Entry, n: nat, limit: u32)
    requires n < |EntryBytes(e)|
    ensures ParseEntry(EntryBytes(e)[..n], limit).Short?
  {
    hide ParseEntry, EntryBytes;
    var large: u32 := if |e.payload| > limit then |e.payload| else limit;
    CutEntryIsDamage(e, n, large);
    if ParseEntry(EntryBytes(e)[..n], limit).Got? {
      ParseEntryRoomier(EntryBytes(e)[..n], limit, large);
    }
  }

  // ---- whole journals ----------------------------------------------------------------

  datatype Scanned = Scanned(entries: seq<Entry>, torn: seq<byte>)

  /** The records up to the first damaged byte, and everything from there on. */
  function Scan(s: seq<byte>, limit: u32): (r: Scanned)
    ensures |r.torn| <= |s|
    decreases |s|
  {
    match ParseEntry(s, limit)
    case Short => Scanned([], s)
    case Got(e, rest) => var later := Scan(rest, limit); Scanned([e] + later.entries, later.torn)
  }

  lemma ScanGot(s: seq<byte>, limit: u32)
    requires ParseEntry(s, limit).Got?
    ensures var p := ParseEntry(s, limit);
            Scan(s, limit) == Scanned([p.value] + Scan(p.rest, limit).entries, Scan(p.rest, limit).torn)
  {
    hide ParseEntry;
  }

  function EntriesBytes(es: seq<Entry>): seq<byte> {
    if es == [] then [] else EntryBytes(es[0]) + EntriesBytes(es[1..])
  }

  lemma {:induction false} EntriesBytesAppend(a: seq<Entry>, b: seq<Entry>)
    ensures EntriesBytes(a + b) == EntriesBytes(a) + EntriesBytes(b)
  {
    hide EntryBytes;
    if a == [] {
      assert a + b == b;
    } else {
      EntriesBytesAppend(a[1..], b);
      assert (a + b)[0] == a[0] && (a + b)[1..] == a[1..] + b;
      var head := EntryBytes(a[0]);
      assert head + (EntriesBytes(a[1..]) + EntriesBytes(b)) == (head + EntriesBytes(a[1..])) + EntriesBytes(b);
    }
  }

  lemma {:induction false} ScanBack(es: seq<Entry>, tail: seq<byte>, limit: u32)
    requires forall e <- es :: |e.payload| <= limit
    ensures Scan(EntriesBytes(es) + tail, limit) == Scanned(es + Scan(tail, limit).entries, Scan(tail, limit).torn)
    decreases |es|
  {
    hide EntryBytes, ParseEntry, Scan;
    if es == [] {
      assert EntriesBytes(es) + tail == tail;
      assert es + Scan(tail, limit).entries == Scan(tail, limit).entries;
    } else {
      var rest := EntriesBytes(es[1..]) + tail;
      assert EntriesBytes(es) + tail == EntryBytes(es[0]) + rest;
      ParseEntryBack(es[0], rest, limit);
      ScanGot(EntriesBytes(es) + tail, limit);
      ScanBack(es[1..], tail, limit);
      assert [es[0]] + (es[1..] + Scan(tail, limit).entries) == es + Scan(tail, limit).entries;
    }
  }

  /** How many whole records the first n bytes of a journal hold. */
  function WholeRecords(es: seq<Entry>, n: nat): (k: nat)
    ensures k <= |es|
  {
    if es == [] || n < |EntryBytes(es[0])| then 0 else 1 + WholeRecords(es[1..], n - |EntryBytes(es[0])|)
  }

  /** A journal cut at any byte scans to exactly its longest whole-record prefix. */
  lemma CutJournalScan(es: seq<Entry>, n: nat, limit: u32)
    requires n <= |EntriesBytes(es)|
    requires forall e <- es :: |e.payload| <= limit
    ensures var k := WholeRecords(es, n);
            && |EntriesBytes(es[..k])| <= n
            && (k < |es| ==> n < |EntriesBytes(es[..k + 1])|)
            && Scan(EntriesBytes(es)[..n], limit) == Scanned(es[..k], EntriesBytes(es)[|EntriesBytes(es[..k])|..n])
    decreases |es|
  {
    hide EntryBytes, ParseEntry, Scan;
    var b := EntriesBytes(es);
    if es == [] {
      assert b[..n] == [];
      ScanShort([], limit);
    } else if n < |EntryBytes(es[0])| {
      CutEntryIsDamage(es[0], n, limit);
      assert b[..n] == EntryBytes(es[0])[..n];
      ScanShort(b[..n], limit);
      EntriesBytesOne(es);
    } else {
      CutJournalStep(es, n, limit);
    }
  }

  lemma ScanShort(s: seq<byte>, limit: u32)
    requires ParseEntry(s, limit).Short?
    ensures Scan(s, limit) == Scanned([], s)
  {
    hide ParseEntry;
  }

  lemma EntriesBytesOne(es: seq<Entry>)
    requires es != []
    ensures EntriesBytes(es[..1]) == EntryBytes(es[0]) && EntriesBytes(es[..0]) == []
  {
    hide EntryBytes;
    assert EntriesBytes(es[..1]) == EntryBytes(es[0]) + EntriesBytes(es[..1][1..]);
  }

  lemma EntriesBytesStep(es: seq<Entry>, k: nat)
    requires 1 <= k <= |es|
    ensures EntriesBytes(es[..k]) == EntryBytes(es[0]) + EntriesBytes(es[1..][..k - 1])
  {
    hide EntryBytes;
    assert es[..k][1..] == es[1..][..k - 1] && es[..k][0] == es[0];
  }

  lemma CutStepFacts(es: seq<Entry>, n: nat)
    requires es != [] && |EntryBytes(es[0])| <= n
    ensures EntriesBytes(es) == EntryBytes(es[0]) + EntriesBytes(es[1..])
    ensures WholeRecords(es, n) == 1 + WholeRecords(es[1..], n - |EntryBytes(es[0])|)
  {
    hide EntryBytes;
  }

  lemma CutJournalStep(es: seq<Entry>, n: nat, limit: u32)
    requires es != [] && |EntryBytes(es[0])| <= n <= |EntriesBytes(es)|
    requires forall e <- es :: |e.payload| <= limit
    ensures var k := WholeRecords(es, n);
            && |EntriesBytes(es[..k])| <= n
            && (k < |es| ==> n < |EntriesBytes(es[..k + 1])|)
            && Scan(EntriesBytes(es)[..n], limit) == Scanned(es[..k], EntriesBytes(es)[|EntriesBytes(es[..k])|..n])
    decreases |es|, 0
  {
    hide EntryBytes, ParseEntry, Scan, EntriesBytes, WholeRecords;
    var b, first, rest := EntriesBytes(es), EntryBytes(es[0]), EntriesBytes(es[1..]);
    var k := WholeRecords(es, n);
    var m := n - |first|;
    CutStepFacts(es, n);
    CutJournalScan(es[1..], m, limit);
    assert b[..n] == first + rest[..m];
    ParseEntryBack(es[0], rest[..m], limit);
    ScanGot(b[..n], limit);
    EntriesBytesStep(es, k);
    assert [es[0]] + es[1..][..k - 1] == es[..k];
    if k < |es| {
      EntriesBytesStep(es, k + 1);
    }
    var done := |EntriesBytes(es[1..][..k - 1])|;
    assert b[|first| + done..n] == rest[done..m];
  }

  // ---- damage --------------------------------------------------------------------------

  /** Some later offset of the damaged bytes holds a checksum-correct record. */
  ghost predicate LaterRecord(torn: seq<byte>, limit: u32) {
    exists i :: 1 <= i <= |torn| && ParseEntry(torn[i..], limit).Got?
  }

  /** Reads and checks the record at an offset, piece by piece. */
  method ReadRecord(data: seq<byte>, at: nat, limit: u32) returns (p: Parsed<Entry>)
    requires at <= |data|
    ensures p == ParseEntry(data[at..], limit)
  {
    ghost var s := data[at..];
    if |data| - at < HEADER_BYTES { return Short; }
    var h := data[at..at + 28];
    assert h == s[..28];
    if !HeaderOk(h, limit) { return Short; }
    var length := FromLE(h[20..24]);
    if |data| - at < HEADER_BYTES + length { return Short; }
    var payload: Payload := data[at + 28..at + 28 + length];
    if |data| - at < OVERHEAD + length { return Short; }
    var trailer := data[at + 28 + length..at + 36 + length];
    assert payload == s[28..28 + length] && trailer == s[28 + length..36 + length];
    if FromLE(trailer[4..]) != RECORD_END_MAGIC { return Short; }
    var payloadCrc := Compute([payload]);
    assert Flat([payload]) == payload + Flat([]) == payload;
    if payloadCrc != FromLE(h[24..28]) { return Short; }
    var recordCrc := Compute([h, payload]);
    assert [h, payload][1..] == [payload];
    assert Flat([h, payload]) == h + Flat([payload]);
    if recordCrc != FromLE(trailer[..4]) { return Short; }
    Narrow(h[12..20]);
    p := Got(Entry(FromLE(h[8..10]), FromLE(h[12..20]), payload), data[at + 36 + length..]);
    assert data[at + 36 + length..] == s[36 + length..];
  }

  const CHUNK := 0x10_0000

  predicate MagicAt(chunk: seq<byte>, i: nat)
    requires i + 4 <= |chunk|
  {
    chunk[i] == 0x46 && chunk[i + 1] == 0x50 && chunk[i + 2] == 0x52 && chunk[i + 3] == 0x43
  }

  lemma MagicBytes(b: seq<byte>)
    requires |b| == 4 && FromLE(b) == RECORD_MAGIC
    ensures b == [0x46, 0x50, 0x52, 0x43]
  {
    LEInvertsFromLE(b);
    assert LE(RECORD_MAGIC, 4) == [0x46] + LE(0x43_5250, 3);
    assert LE(0x43_5250, 3) == [0x50] + LE(0x4352, 2);
    assert LE(0x4352, 2) == [0x52] + LE(0x43, 1);
    assert LE(0x43, 1) == [0x43] + LE(0, 0);
  }

  /**
   The chunked damage scan, reading in blocks that overlap by three bytes: it finds a later
   record exactly when some later offset holds one.
   */
  method FindLaterRecord(data: seq<byte>, offset: nat, limit: u32) returns (found: bool)
    requires offset <= |data|
    ensures found <==> LaterRecord(data[offset..], limit)
  {
    hide ParseEntry;
    found := false;
    ghost var torn := data[offset..];
    var scan := offset + 1;
    while !found && scan + OVERHEAD <= |data|
      invariant offset < scan
      invariant found ==> LaterRecord(torn, limit)
      invariant !found ==> forall j :: offset < j < scan && j <= |data| ==> ParseEntry(data[j..], limit).Short?
      decreases !found, |data| - scan
    {
      var wanted := if CHUNK < |data| - scan then CHUNK else |data| - scan;
      var chunk := data[scan..scan + wanted];
      var got := |chunk|;
      var i := 0;
      while i + 4 <= got && !found
        invariant 0 <= i <= got - 3
        invariant found ==> LaterRecord(torn, limit)
        invariant !found ==> forall j :: offset < j < scan + i && j <= |data| ==> ParseEntry(data[j..], limit).Short?
        decreases got - i, !found
      {
        var candidate := scan + i;
        if MagicAt(chunk, i) {
          if candidate + OVERHEAD <= |data| {
            var p := ReadRecord(data, candidate, limit);
            if p.Got? {
              assert torn[candidate - offset..] == data[candidate..];
              found := true;
            }
          }
        } else if ParseEntry(data[candidate..], limit).Got? {
          NoMagic(data, candidate, limit);
          assert false;
        }
        if !found { i := i + 1; }
      }
      if !found { scan := scan + (got - 3); }
    }
    if !found {
      forall i | 1 <= i <= |torn| ensures ParseEntry(torn[i..], limit).Short? {
        assert torn[i..] == data[offset + i..];
      }
    }
  }

  lemma NoMagic(data: seq<byte>, at: nat, limit: u32)
    requires at <= |data| && ParseEntry(data[at..], limit).Got?
    ensures at + 4 <= |data| && MagicAt(data, at)
  {
    var b := data[at..][..28][..4];
    MagicBytes(b);
    assert data[at] == b[0] && data[at + 1] == b[1] && data[at + 2] == b[2] && data[at + 3] == b[3];
  }

  /** Bytes of a torn record hold no later record unless a record was embedded in them. */
  lemma NothingEmbedded(torn: seq<byte>, limit: u32)
    requires forall i :: 1 <= i && i + OVERHEAD <= |torn| ==> !MagicAt(torn, i)
    ensures !LaterRecord(torn, limit)
  {
    forall i | 1 <= i <= |torn| ensures ParseEntry(torn[i..], limit).Short? {
      if ParseEntry(torn[i..], limit).Got? {
        NoMagic(torn, i, limit);
      }
    }
  }
}
