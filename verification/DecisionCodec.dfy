/** The wire form of placement decisions, with their explanations. */
module DecisionCodec {
  import opened Bytes
  import opened Records
  import opened Model
  import opened Formats

  /** Fixed decode bounds. */
  const MAX_NOTES := 64
  const MAX_MESSAGE := 1024
  const MAX_BINDINGS := 32
  const MAX_FLAGS := 9

  datatype Key = Key(kind: u8, direction: u8, known: bool, value: u64)

  datatype Ranked = Ranked(path: u64, authority: u64, rank: u32, isIncumbent: bool, keys: seq<Key>)

  datatype Summary = Summary(reason: u8, count: u64, sample: seq<u64>)

  datatype Binding = Binding(reason: u8, path: u64, required: u64, available: u64, text: seq<byte>)

  /** The counts are candidates, legal, excluded, unknown and distinct domains. */
  datatype Explanation = Explanation(
    truncated: bool, counts: seq<u64>, ranked: seq<Ranked>, exclusions: seq<Summary>, flags: seq<u8>,
    bindings: seq<Binding>, notes: seq<seq<byte>>)

  /** The authority vector is twelve identities and generations. */
  datatype Decision = Decision(
    outcome: u8, code: u16, intent: Option<Intent>, authority: seq<u64>, delta: u8, explanation: Explanation,
    digestHi: u64, digestLo: u64, validation: u16, message: seq<byte>)

  // ---- parts ------------------------------------------------------------------------------------------

  function KeyFormat(): Format<Key> {
    As(Both(Enum(8, WIRE_MALFORMED), Both(Enum(1, WIRE_MALFORMED), Both(Flag(WIRE_MALFORMED), U64(WIRE_MALFORMED)))),
       (t: (u8, (u8, (bool, u64)))) => Key(t.0, t.1.0, t.1.1.0, t.1.1.1), (k: Key) => (k.kind, (k.direction, (k.known, k.value))))
  }

  type RankedParts = (u64, (u64, (u32, (bool, seq<Key>))))

  function RankedFormat(l: Limits): Format<Ranked> {
    As(Both(U64(WIRE_MALFORMED), Both(U64(WIRE_MALFORMED), Both(U32(WIRE_MALFORMED), Both(Flag(WIRE_MALFORMED),
       List(KeyFormat(), l.maxObjectives, WIRE_MALFORMED, WIRE_MALFORMED))))),
       (t: RankedParts) => Ranked(t.0, t.1.0, t.1.1.0, t.1.1.1.0, t.1.1.1.1),
       (r: Ranked) => (r.path, (r.authority, (r.rank, (r.isIncumbent, r.keys)))))
  }

  function SummaryFormat(l: Limits): Format<Summary> {
    As(Both(Enum(17, WIRE_MALFORMED), Both(U64(WIRE_MALFORMED), List(U64(WIRE_MALFORMED), l.maxSamples, WIRE_MALFORMED, WIRE_MALFORMED))),
       (t: (u8, (u64, seq<u64>))) => Summary(t.0, t.1.0, t.1.1), (s: Summary) => (s.reason, (s.count, s.sample)))
  }

  type BindingParts = (u8, (u64, (u64, (u64, seq<byte>))))

  function BindingFormat(maxString: u64): Format<Binding> {
    As(Both(Enum(17, WIRE_MALFORMED), Both(U64(WIRE_MALFORMED), Both(U64(WIRE_MALFORMED), Both(U64(WIRE_MALFORMED),
       Text(maxString, WIRE_MALFORMED))))),
       (t: BindingParts) => Binding(t.0, t.1.0, t.1.1.0, t.1.1.1.0, t.1.1.1.1),
       (b: Binding) => (b.reason, (b.path, (b.required, (b.available, b.text)))))
  }

  type Front = (bool, (seq<u64>, (seq<Ranked>, seq<Summary>)))
  type Back = (seq<u8>, (seq<Binding>, seq<seq<byte>>))

  function FrontFormat(l: Limits): Format<Front> {
    Both(Flag(WIRE_MALFORMED), Both(Fields(5, WIRE_MALFORMED),
         Both(List(RankedFormat(l), l.maxRanked, WIRE_MALFORMED, WIRE_MALFORMED),
              List(SummaryFormat(l), l.maxReasons, WIRE_MALFORMED, WIRE_MALFORMED))))
  }

  /** The bound on a note is narrowed to 32 bits, the bound on a binding's text is not. */
  function BackFormat(maxString: u64): Format<Back> {
    Both(List(Enum(8, WIRE_MALFORMED), MAX_FLAGS, WIRE_MALFORMED, WIRE_MALFORMED),
         Both(List(BindingFormat(maxString), MAX_BINDINGS, WIRE_MALFORMED, WIRE_MALFORMED),
              List(Text(maxString % 0x1_0000_0000, WIRE_MALFORMED), MAX_NOTES, WIRE_MALFORMED, WIRE_MALFORMED)))
  }

  function ExplanationFormat(l: Limits, maxString: u64): Format<Explanation> {
    As(Both(FrontFormat(l), BackFormat(maxString)),
       (t: (Front, Back)) => Explanation(t.0.0, t.0.1.0, t.0.1.1.0, t.0.1.1.1, t.1.0, t.1.1.0, t.1.1.1),
       (e: Explanation) => ((e.truncated, (e.counts, (e.ranked, e.exclusions))), (e.flags, (e.bindings, e.notes))))
  }

  function IntentOfFields(v: seq<u64>): Intent {
    if |v| == 21 then IntentOf(v) else Intent(0, 0, 0, 0, 0, 0, 0, 0, 0, 0, 0, 0, 0, 0, 0, 0, 0, 0, 0, 0, 0)
  }

  function IntentFormat(): Format<Intent> {
    As(Fields(21, WIRE_MALFORMED), IntentOfFields, (i: Intent) => IntentFields(i))
  }

  function CodeFormat(): Format<u16> {
    Where(U16(WIRE_MALFORMED), (c: u16) => IsKnownStatusCode(c), WIRE_MALFORMED)
  }

  type Head = (u8, (u16, (Option<Intent>, (seq<u64>, u8))))
  type Close = (seq<u64>, (u16, seq<byte>))
  type DecisionParts = (Head, (Explanation, Close))

  function HeadFormat(): Format<Head> {
    Both(Enum(7, WIRE_MALFORMED), Both(CodeFormat(), Both(Optional(IntentFormat(), WIRE_MALFORMED),
         Both(Fields(12, WIRE_MALFORMED), Enum(3, WIRE_MALFORMED)))))
  }

  function CloseFormat(): Format<Close> {
    Both(Fields(2, WIRE_MALFORMED), Both(CodeFormat(), Text(MAX_MESSAGE, WIRE_MALFORMED)))
  }

  function DecisionFrom(t: DecisionParts): Decision {
    var h, e, c := t.0, t.1.0, t.1.1;
    var digest := if |c.0| == 2 then c.0 else [0, 0];
    Decision(h.0, h.1.0, h.1.1.0, h.1.1.1.0, h.1.1.1.1, e, digest[0], digest[1], c.1.0, c.1.1)
  }

  function DecisionTo(d: Decision): DecisionParts {
    ((d.outcome, (d.code, (d.intent, (d.authority, d.delta)))), (d.explanation, ([d.digestHi, d.digestLo], (d.validation, d.message))))
  }

  function DecisionFormat(l: Limits, maxString: u64): Format<Decision> {
    As(Both(HeadFormat(), Both(ExplanationFormat(l, maxString), CloseFormat())), DecisionFrom, DecisionTo)
  }

  // ---- lawfulness -----------------------------------------------------------------------------------------

  lemma RankedLawful(l: Limits)
    ensures Lawful(RankedFormat(l))
  {
    hide Lawful, As, Both, List, Enum, Flag, U64, U32;
    EnumLawful(8, WIRE_MALFORMED);
    EnumLawful(1, WIRE_MALFORMED);
    FlagLawful(WIRE_MALFORMED);
    U64Lawful(WIRE_MALFORMED);
    U32Lawful(WIRE_MALFORMED);
    var k2 := Both(Flag(WIRE_MALFORMED), U64(WIRE_MALFORMED));
    BothLawful(Flag(WIRE_MALFORMED), U64(WIRE_MALFORMED));
    BothLawful(Enum(1, WIRE_MALFORMED), k2);
    BothLawful(Enum(8, WIRE_MALFORMED), Both(Enum(1, WIRE_MALFORMED), k2));
    AsLawful(Both(Enum(8, WIRE_MALFORMED), Both(Enum(1, WIRE_MALFORMED), k2)),
             (t: (u8, (u8, (bool, u64)))) => Key(t.0, t.1.0, t.1.1.0, t.1.1.1), (k: Key) => (k.kind, (k.direction, (k.known, k.value))));
    var keys := List(KeyFormat(), l.maxObjectives, WIRE_MALFORMED, WIRE_MALFORMED);
    ListLawful(KeyFormat(), l.maxObjectives, WIRE_MALFORMED, WIRE_MALFORMED);
    BothLawful(Flag(WIRE_MALFORMED), keys);
    BothLawful(U32(WIRE_MALFORMED), Both(Flag(WIRE_MALFORMED), keys));
    var r3 := Both(U32(WIRE_MALFORMED), Both(Flag(WIRE_MALFORMED), keys));
    BothLawful(U64(WIRE_MALFORMED), r3);
    BothLawful(U64(WIRE_MALFORMED), Both(U64(WIRE_MALFORMED), r3));
    AsLawful(Both(U64(WIRE_MALFORMED), Both(U64(WIRE_MALFORMED), r3)),
             (t: RankedParts) => Ranked(t.0, t.1.0, t.1.1.0, t.1.1.1.0, t.1.1.1.1),
             (r: Ranked) => (r.path, (r.authority, (r.rank, (r.isIncumbent, r.keys)))));
  }

  lemma SummaryLawful(l: Limits)
    ensures Lawful(SummaryFormat(l))
  {
    hide Lawful, As, Both, List, Enum, U64;
    EnumLawful(17, WIRE_MALFORMED);
    U64Lawful(WIRE_MALFORMED);
    var sample := List(U64(WIRE_MALFORMED), l.maxSamples, WIRE_MALFORMED, WIRE_MALFORMED);
    ListLawful(U64(WIRE_MALFORMED), l.maxSamples, WIRE_MALFORMED, WIRE_MALFORMED);
    BothLawful(U64(WIRE_MALFORMED), sample);
    BothLawful(Enum(17, WIRE_MALFORMED), Both(U64(WIRE_MALFORMED), sample));
    AsLawful(Both(Enum(17, WIRE_MALFORMED), Both(U64(WIRE_MALFORMED), sample)),
             (t: (u8, (u64, seq<u64>))) => Summary(t.0, t.1.0, t.1.1), (s: Summary) => (s.reason, (s.count, s.sample)));
  }

  lemma BindingLawful(maxString: u64)
    ensures Lawful(BindingFormat(maxString))
  {
    hide Lawful, As, Both, Enum, U64, Text;
    EnumLawful(17, WIRE_MALFORMED);
    U64Lawful(WIRE_MALFORMED);
    TextLawful(maxString, WIRE_MALFORMED);
    var b3 := Both(U64(WIRE_MALFORMED), Text(maxString, WIRE_MALFORMED));
    BothLawful(U64(WIRE_MALFORMED), Text(maxString, WIRE_MALFORMED));
    BothLawful(U64(WIRE_MALFORMED), b3);
    BothLawful(U64(WIRE_MALFORMED), Both(U64(WIRE_MALFORMED), b3));
    BothLawful(Enum(17, WIRE_MALFORMED), Both(U64(WIRE_MALFORMED), Both(U64(WIRE_MALFORMED), b3)));
    AsLawful(Both(Enum(17, WIRE_MALFORMED), Both(U64(WIRE_MALFORMED), Both(U64(WIRE_MALFORMED), b3))),
             (t: BindingParts) => Binding(t.0, t.1.0, t.1.1.0, t.1.1.1.0, t.1.1.1.1),
             (b: Binding) => (b.reason, (b.path, (b.required, (b.available, b.text)))));
  }

  lemma ExplanationLawful(l: Limits, maxString: u64)
    ensures Lawful(ExplanationFormat(l, maxString))
  {
    hide Lawful, As, Both, List, Enum, Flag, Fields, Text, RankedFormat, SummaryFormat, BindingFormat;
    FlagLawful(WIRE_MALFORMED);
    FieldsLawful(5, WIRE_MALFORMED);
    RankedLawful(l);
    SummaryLawful(l);
    BindingLawful(maxString);
    EnumLawful(8, WIRE_MALFORMED);
    TextLawful(maxString % 0x1_0000_0000, WIRE_MALFORMED);
    var ranked := List(RankedFormat(l), l.maxRanked, WIRE_MALFORMED, WIRE_MALFORMED);
    var summaries := List(SummaryFormat(l), l.maxReasons, WIRE_MALFORMED, WIRE_MALFORMED);
    ListLawful(RankedFormat(l), l.maxRanked, WIRE_MALFORMED, WIRE_MALFORMED);
    ListLawful(SummaryFormat(l), l.maxReasons, WIRE_MALFORMED, WIRE_MALFORMED);
    BothLawful(ranked, summaries);
    BothLawful(Fields(5, WIRE_MALFORMED), Both(ranked, summaries));
    BothLawful(Flag(WIRE_MALFORMED), Both(Fields(5, WIRE_MALFORMED), Both(ranked, summaries)));
    var flags := List(Enum(8, WIRE_MALFORMED), MAX_FLAGS, WIRE_MALFORMED, WIRE_MALFORMED);
    var bindings := List(BindingFormat(maxString), MAX_BINDINGS, WIRE_MALFORMED, WIRE_MALFORMED);
    var notes := List(Text(maxString % 0x1_0000_0000, WIRE_MALFORMED), MAX_NOTES, WIRE_MALFORMED, WIRE_MALFORMED);
    ListLawful(Enum(8, WIRE_MALFORMED), MAX_FLAGS, WIRE_MALFORMED, WIRE_MALFORMED);
    ListLawful(BindingFormat(maxString), MAX_BINDINGS, WIRE_MALFORMED, WIRE_MALFORMED);
    ListLawful(Text(maxString % 0x1_0000_0000, WIRE_MALFORMED), MAX_NOTES, WIRE_MALFORMED, WIRE_MALFORMED);
    BothLawful(bindings, notes);
    BothLawful(flags, Both(bindings, notes));
    BothLawful(FrontFormat(l), BackFormat(maxString));
    AsLawful(Both(FrontFormat(l), BackFormat(maxString)),
             (t: (Front, Back)) => Explanation(t.0.0, t.0.1.0, t.0.1.1.0, t.0.1.1.1, t.1.0, t.1.1.0, t.1.1.1),
             (e: Explanation) => ((e.truncated, (e.counts, (e.ranked, e.exclusions))), (e.flags, (e.bindings, e.notes))));
  }

  lemma EndsLawful()
    ensures Lawful(HeadFormat()) && Lawful(CloseFormat())
  {
    hide Lawful, As, Both, Enum, Fields, Optional, Where, Text, U16;
    EnumLawful(7, WIRE_MALFORMED);
    EnumLawful(3, WIRE_MALFORMED);
    U16Lawful(WIRE_MALFORMED);
    WhereLawful(U16(WIRE_MALFORMED), (c: u16) => IsKnownStatusCode(c), WIRE_MALFORMED);
    FieldsLawful(21, WIRE_MALFORMED);
    AsLawful(Fields(21, WIRE_MALFORMED), IntentOfFields, (i: Intent) => IntentFields(i));
    OptionalLawful(IntentFormat(), WIRE_MALFORMED);
    FieldsLawful(12, WIRE_MALFORMED);
    FieldsLawful(2, WIRE_MALFORMED);
    TextLawful(MAX_MESSAGE, WIRE_MALFORMED);
    var h3 := Both(Fields(12, WIRE_MALFORMED), Enum(3, WIRE_MALFORMED));
    BothLawful(Fields(12, WIRE_MALFORMED), Enum(3, WIRE_MALFORMED));
    BothLawful(Optional(IntentFormat(), WIRE_MALFORMED), h3);
    BothLawful(CodeFormat(), Both(Optional(IntentFormat(), WIRE_MALFORMED), h3));
    BothLawful(Enum(7, WIRE_MALFORMED), Both(CodeFormat(), Both(Optional(IntentFormat(), WIRE_MALFORMED), h3)));
    BothLawful(CodeFormat(), Text(MAX_MESSAGE, WIRE_MALFORMED));
    BothLawful(Fields(2, WIRE_MALFORMED), Both(CodeFormat(), Text(MAX_MESSAGE, WIRE_MALFORMED)));
  }

  lemma DecisionLawful(l: Limits, maxString: u64)
    ensures Lawful(DecisionFormat(l, maxString))
  {
    hide Lawful, As, Both, HeadFormat, ExplanationFormat, CloseFormat;
    EndsLawful();
    ExplanationLawful(l, maxString);
    BothLawful(ExplanationFormat(l, maxString), CloseFormat());
    BothLawful(HeadFormat(), Both(ExplanationFormat(l, maxString), CloseFormat()));
    AsLawful(Both(HeadFormat(), Both(ExplanationFormat(l, maxString), CloseFormat())), DecisionFrom, DecisionTo);
  }

  // ---- which decisions fit --------------------------------------------------------------------------------------

  predicate KeyFits(k: Key) { k.kind <= 8 && k.direction <= 1 }

  predicate RankedFits(r: Ranked, l: Limits) { CountFits(|r.keys|, l.maxObjectives) && forall k <- r.keys :: KeyFits(k) }

  predicate ExplanationFits(e: Explanation, l: Limits, maxString: u64) {
    && |e.counts| == 5
    && CountFits(|e.ranked|, l.maxRanked) && (forall r <- e.ranked :: RankedFits(r, l))
    && CountFits(|e.exclusions|, l.maxReasons) && (forall s <- e.exclusions :: s.reason <= 17 && CountFits(|s.sample|, l.maxSamples))
    && |e.flags| <= MAX_FLAGS && (forall f <- e.flags :: f <= 8)
    && |e.bindings| <= MAX_BINDINGS && (forall b <- e.bindings :: b.reason <= 17 && CountFits(|b.text|, maxString))
    && |e.notes| <= MAX_NOTES && (forall n <- e.notes :: |n| <= maxString % 0x1_0000_0000)
  }

  /** The decision's strings and lists are within the decode bounds and its enumerations in range. */
  predicate DecisionFits(d: Decision, l: Limits, maxString: u64) {
    && d.outcome <= 7 && IsKnownStatusCode(d.code) && |d.authority| == 12 && d.delta <= 3
    && ExplanationFits(d.explanation, l, maxString) && IsKnownStatusCode(d.validation) && |d.message| <= MAX_MESSAGE
  }

  lemma RankedFit(r: Ranked, l: Limits)
    ensures RankedFormat(l).fits(r) <==> RankedFits(r, l)
  {
    forall k: Key ensures KeyFormat().fits(k) <==> KeyFits(k) { }
    ListFits(KeyFormat(), l.maxObjectives, WIRE_MALFORMED, WIRE_MALFORMED, r.keys, KeyFits);
    hide KeyFormat, List;
  }

  lemma SummaryFit(s: Summary, l: Limits)
    ensures SummaryFormat(l).fits(s) <==> s.reason <= 17 && CountFits(|s.sample|, l.maxSamples)
  {
  }

  lemma BindingFit(b: Binding, maxString: u64)
    ensures BindingFormat(maxString).fits(b) <==> b.reason <= 17 && CountFits(|b.text|, maxString)
  {
  }

  lemma FrontFit(e: Explanation, l: Limits)
    ensures FrontFormat(l).fits((e.truncated, (e.counts, (e.ranked, e.exclusions)))) <==>
              |e.counts| == 5
              && CountFits(|e.ranked|, l.maxRanked) && (forall r <- e.ranked :: RankedFits(r, l))
              && CountFits(|e.exclusions|, l.maxReasons) && (forall s <- e.exclusions :: s.reason <= 17 && CountFits(|s.sample|, l.maxSamples))
  {
    hide RankedFormat, SummaryFormat, List, RankedFits;
    forall r: Ranked ensures RankedFormat(l).fits(r) <==> RankedFits(r, l) { RankedFit(r, l); }
    forall s: Summary ensures SummaryFormat(l).fits(s) <==> s.reason <= 17 && CountFits(|s.sample|, l.maxSamples) { SummaryFit(s, l); }
    ListFits(RankedFormat(l), l.maxRanked, WIRE_MALFORMED, WIRE_MALFORMED, e.ranked, (r: Ranked) => RankedFits(r, l));
    ListFits(SummaryFormat(l), l.maxReasons, WIRE_MALFORMED, WIRE_MALFORMED, e.exclusions,
             (s: Summary) => s.reason <= 17 && CountFits(|s.sample|, l.maxSamples));
  }

  lemma BackFit(e: Explanation, maxString: u64)
    ensures BackFormat(maxString).fits((e.flags, (e.bindings, e.notes))) <==>
              |e.flags| <= MAX_FLAGS && (forall f <- e.flags :: f <= 8)
              && |e.bindings| <= MAX_BINDINGS && (forall b <- e.bindings :: b.reason <= 17 && CountFits(|b.text|, maxString))
              && |e.notes| <= MAX_NOTES && (forall n <- e.notes :: |n| <= maxString % 0x1_0000_0000)
  {
    hide BindingFormat, List;
    forall b: Binding ensures BindingFormat(maxString).fits(b) <==> b.reason <= 17 && CountFits(|b.text|, maxString) { BindingFit(b, maxString); }
    ListFits(Enum(8, WIRE_MALFORMED), MAX_FLAGS, WIRE_MALFORMED, WIRE_MALFORMED, e.flags, (f: u8) => f <= 8);
    ListFits(BindingFormat(maxString), MAX_BINDINGS, WIRE_MALFORMED, WIRE_MALFORMED, e.bindings,
             (b: Binding) => b.reason <= 17 && CountFits(|b.text|, maxString));
    ListFits(Text(maxString % 0x1_0000_0000, WIRE_MALFORMED), MAX_NOTES, WIRE_MALFORMED, WIRE_MALFORMED, e.notes,
             (n: seq<byte>) => |n| <= maxString % 0x1_0000_0000);
  }

  lemma ExplanationFit(e: Explanation, l: Limits, maxString: u64)
    ensures ExplanationFormat(l, maxString).fits(e) <==> ExplanationFits(e, l, maxString)
  {
    hide FrontFormat, BackFormat;
    FrontFit(e, l);
    BackFit(e, maxString);
  }

  lemma IntentsFit()
    ensures forall i: Intent :: IntentFormat().fits(i)
  {
    forall i: Intent ensures IntentFormat().fits(i) { assert IntentOfFields(IntentFields(i)) == i; }
  }

  lemma HeadFit(d: Decision)
    ensures HeadFormat().fits(DecisionTo(d).0) <==>
              d.outcome <= 7 && IsKnownStatusCode(d.code) && |d.authority| == 12 && d.delta <= 3
    ensures CloseFormat().fits(DecisionTo(d).1.1) <==> IsKnownStatusCode(d.validation) && |d.message| <= MAX_MESSAGE
  {
    hide IntentFormat, IsKnownStatusCode, LE, PutU64s, ReadU64s, ReadString;
    IntentsFit();
  }

  lemma DecisionFitsFormat(d: Decision, l: Limits, maxString: u64)
    ensures DecisionFormat(l, maxString).fits(d) <==> DecisionFits(d, l, maxString)
  {
    hide HeadFormat, ExplanationFormat, CloseFormat, ExplanationFits, IsKnownStatusCode;
    ExplanationFit(d.explanation, l, maxString);
    HeadFit(d);
    assert DecisionFrom(DecisionTo(d)) == d;
  }

  /**
   A decision whose parts fit the decode bounds decodes to itself; every strict prefix and every
   extension of its encoding is refused.
   */
  lemma DecisionsRoundTrip(d: Decision, l: Limits, maxString: u64)
    requires DecisionFits(d, l, maxString)
    ensures var f := DecisionFormat(l, maxString);
            && Decode(f, f.write(d)) == Read(d, [])
            && (forall n :: 0 <= n < |f.write(d)| ==> Decode(f, f.write(d)[..n]).Failed?)
            && (forall more :: more != [] ==> Decode(f, f.write(d) + more) == Failed(WIRE_MALFORMED))
  {
    hide DecisionFormat, DecisionFits, Lawful, Decode;
    DecisionLawful(l, maxString);
    DecisionFitsFormat(d, l, maxString);
    DecodeExactly(DecisionFormat(l, maxString), d);
  }
}
