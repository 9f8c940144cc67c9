/** What any accepted scenario denotes, and exactly which requests are read back from their rendering. */
module ScenarioExactly {
  import opened Bytes
  import opened Records
  import opened Model
  import opened ScenarioText
  import opened Scenario
  import opened ScenarioWriter
  import opened ScenarioArgs
  import opened ScenarioLines
  import opened ScenarioTheorems
  import opened Validation

  // ---- what is read is a word, a name or a list within bounds ---------------------------------------------------

  lemma {:induction false} WordsAreClean(s: string)
    requires '#' !in s
    ensures WordsClean(Words(s))
    decreases |s|
  {
    if s != "" {
      if Blank(s[0]) {
        WordsAreClean(s[1..]);
      } else {
        var n := WordLength(s);
        assert forall c <- s[n..] :: c in s;
        WordsAreClean(s[n..]);
        var w := s[..n];
        forall i | 0 <= i < |w| ensures !Blank(w[i]) && w[i] != '#' { assert w[i] == s[i] && s[i] in s; }
      }
    }
  }

  /** Every value is a word. */
  predicate Wordy(a: Args) { forall k <- a :: Clean(a[k]) }

  lemma {:induction false} PairsWordy(tokens: seq<string>, a: Args)
    requires |tokens| % 2 == 0 && WordsClean(tokens) && Wordy(a)
    ensures Pairs(tokens, a).Ok? ==> Wordy(Pairs(tokens, a).value)
    decreases |tokens|
  {
    hide Clean;
    if tokens != [] && tokens[0] !in a {
      assert tokens[1] in tokens && forall w <- tokens[2..] :: w in tokens;
      PairsWordy(tokens[2..], a[tokens[0] := tokens[1]]);
    }
  }

  lemma {:induction false} ReadAllEach<T>(parts: seq<string>, read: string -> Result<T>)
    ensures ReadAll(parts, read).Ok? ==>
              var xs := ReadAll(parts, read).value;
              |xs| == |parts| && forall i :: 0 <= i < |xs| ==> read(parts[i]) == Ok(xs[i])
    decreases |parts|
  {
    if parts != [] {
      ReadAllEach(parts[1..], read);
      if ReadAll(parts, read).Ok? {
        var xs := ReadAll(parts, read).value;
        forall i | 0 <= i < |xs| ensures read(parts[i]) == Ok(xs[i]) {
          if i > 0 { assert parts[i] == parts[1..][i - 1] && xs[i] == xs[1..][i - 1]; }
        }
      }
    }
  }

  ghost predicate ReadFrom<T>(x: T, read: string -> Result<T>) { exists part :: read(part) == Ok(x) }

  /** A list that was read is not empty and within the bound, and each element was read from some part. */
  lemma ListRead<T>(v: string, limit: nat, read: string -> Result<T>)
    ensures ToList(v, limit, read).Ok? ==>
              var xs := ToList(v, limit, read).value;
              && xs != [] && ListFits(|xs|, limit)
              && forall i :: 0 <= i < |xs| ==> ReadFrom(xs[i], read)
  {
    hide ReadAll, Split;
    if ToList(v, limit, read).Ok? {
      var parts := ToParts(v, limit).value;
      ReadAllEach(parts, read);
      var xs := ToList(v, limit, read).value;
      forall i | 0 <= i < |xs| ensures ReadFrom(xs[i], read) {
        assert read(parts[i]) == Ok(xs[i]);
      }
    }
  }

  lemma ListOrRead<T>(a: Args, k: string, limit: nat, read: string -> Result<T>)
    ensures ListOr(a, k, limit, read).Ok? ==>
              var xs := ListOr(a, k, limit, read).value;
              && ListFits(|xs|, limit)
              && forall i :: 0 <= i < |xs| ==> ReadFrom(xs[i], read)
  {
    hide ToList;
    if Look(a, k).Some? { ListRead(Look(a, k).value, limit, read); }
  }

  lemma TiersNamed(a: Args, k: string)
    ensures ListOr(a, k, 3, ToTier).Ok? ==> forall t <- ListOr(a, k, 3, ToTier).value :: t <= 2
  {
    hide ListOr;
    ListOrRead(a, k, 3, ToTier);
    if ListOr(a, k, 3, ToTier).Ok? {
      var xs := ListOr(a, k, 3, ToTier).value;
      forall t | t in xs ensures t <= 2 {
        var i :| 0 <= i < |xs| && xs[i] == t;
        assert ReadFrom(xs[i], ToTier);
        var part :| ToTier(part) == Ok(xs[i]);
      }
    }
  }

  lemma ObjectivesNamed(v: string, limit: nat)
    ensures ToList(v, limit, ToObjective).Ok? ==> forall o <- ToList(v, limit, ToObjective).value :: ObjectiveNamed(o)
  {
    hide ToList;
    ListRead(v, limit, ToObjective);
    if ToList(v, limit, ToObjective).Ok? {
      var xs := ToList(v, limit, ToObjective).value;
      forall o | o in xs ensures ObjectiveNamed(o) {
        var i :| 0 <= i < |xs| && xs[i] == o;
        assert ReadFrom(xs[i], ToObjective);
        var part :| ToObjective(part) == Ok(xs[i]);
        ObjectiveRead(part);
      }
    }
  }

  lemma ObjectiveRead(part: string)
    ensures ToObjective(part).Ok? ==> ObjectiveNamed(ToObjective(part).value)
  {
    hide IndexOf;
  }

  /** A phrase that was read, or none. */
  predicate Said(b: seq<byte>) { b == [] || Speakable(b) }

  lemma PhraseRead(a: Args, k: string)
    requires Wordy(a)
    ensures Phrase(a, k).Ok? ==> Speakable(Phrase(a, k).value)
  {
    if Phrase(a, k).Ok? {
      var v := a[k];
      var t := TextOf(OctetsOf(v));
      forall i | 0 <= i < |t| ensures !Blank(t[i]) && t[i] != '#' {
        assert !Blank(v[i]) && v[i] != '#';
      }
    }
  }

  // ---- what every accepted line keeps ------------------------------------------------------------------------------

  /** What the request so far satisfies. */
  predicate Held(d: Draft, l: Limits) {
    var r := d.request;
    && |r.paths| <= l.maxPaths && (forall p <- r.paths :: PathNamed(p, l))
    && |r.capacities| <= l.maxCapacities && |r.evidences| <= l.maxEvidences
    && r.qos.serviceClass <= 3 && r.qos.priority <= 3
    && (PolicyLine in d.seen ==> ListsNamed(r.policy, l) && TermsNamed(r.policy, l) && MovesNamed(r.policy))
    && ListFits(|r.occupied|, l.maxOccupied)
    && Said(r.provenance.producer) && Said(r.provenance.version)
  }

  lemma PathRead(a: Args, l: Limits)
    ensures PathFrom(a, l).Ok? ==> PathNamed(PathFrom(a, l).value, l)
  {
    hide ListOr, Number, NumberOr0, Number32Or0, Finish;
    ListOrRead(a, "labels", l.maxLabels, ToNumber);
    ListOrRead(a, "reservations", l.maxReservations, ToRef);
  }

  lemma ListsRead(a: Args, l: Limits, p: Policy)
    requires ListsFrom(a, l) == Ok(ListsIn(p))
    ensures ListsNamed(p, l)
  {
    hide ListOr, ToList, NumberOr0, ObjectiveNamed;
    var text := Need(a, "objectives").value;
    ListRead(text, l.maxObjectives, ToObjective);
    ObjectivesNamed(text, l.maxObjectives);
    ListOrRead(a, "tiers", 3, ToTier);
    TiersNamed(a, "tiers");
    ListOrRead(a, "require-labels", l.maxPolicyLists, ToNumber);
    ListOrRead(a, "forbid-labels", l.maxPolicyLists, ToNumber);
    ListOrRead(a, "locality-forbidden", l.maxPolicyLists, ToNumber);
    ListOrRead(a, "domain-forbidden", l.maxPolicyLists, ToNumber);
  }

  lemma TermsRead(a: Args, l: Limits, p: Policy)
    requires TermsFrom(a, l) == Ok(TermsIn(p))
    ensures TermsNamed(p, l)
  {
    hide ListOr, NumberOr0, Number32Or0, Flag;
    ListOrRead(a, "affinity-refs", l.maxAffinity, ToRef);
  }

  lemma MovesRead(a: Args, p: Policy)
    requires MovesFrom(a) == Ok(MovesIn(p))
    ensures MovesNamed(p)
  {
    hide NumberOr0, Number32Or0, Flag;
  }

  lemma PolicyRead(a: Args, l: Limits)
    ensures PolicyFrom(a, l).Ok? ==>
              var p := PolicyFrom(a, l).value; ListsNamed(p, l) && TermsNamed(p, l) && MovesNamed(p)
  {
    hide ListsFrom, TermsFrom, MovesFrom, NameFrom, Finish, ListsNamed, TermsNamed, MovesNamed;
    if PolicyFrom(a, l).Ok? {
      var p := PolicyFrom(a, l).value;
      ListsRead(a, l, p);
      TermsRead(a, l, p);
      MovesRead(a, p);
    }
  }

  lemma QosRead(a: Args)
    ensures QosFrom(a).Ok? ==> QosFrom(a).value.serviceClass <= 3 && QosFrom(a).value.priority <= 3
  {
    hide NameFrom, NumberOr0, Finish;
  }

  lemma OccupiedRead(a: Args, l: Limits)
    ensures OccupiedFrom(a, l).Ok? ==> ListFits(|OccupiedFrom(a, l).value|, l.maxOccupied)
  {
    hide ToList, Finish;
    if Need(a, "domains").Ok? { ListRead(Need(a, "domains").value, l.maxOccupied, ToNumber); }
  }

  lemma ProvenanceRead(a: Args)
    requires Wordy(a)
    ensures ProvenanceFrom(a).Ok? ==> Speakable(ProvenanceFrom(a).value.producer) && Speakable(ProvenanceFrom(a).value.version)
  {
    hide Phrase, Number, NumberOr0, Finish, Speakable;
    PhraseRead(a, "producer");
    PhraseRead(a, "version");
  }

  /** What has been read so far, if it was accepted, is held. */
  predicate StaysHeld(r: Result<Draft>, l: Limits) { r.Ok? ==> Held(r.value, l) }

  predicate IsHeld(r: Result<Request>, l: Limits) { r.Ok? ==> Held(Draft(r.value, {PolicyLine}), l) }

  lemma ApplyHeld(d: Draft, line: Directive, a: Args, l: Limits)
    requires line != VersionLine && Held(d, l) && Wordy(a)
    ensures StaysHeld(Apply(d, line, a, l), l)
  {
    hide PathFrom, PolicyFrom, QosFrom, OccupiedFrom, ProvenanceFrom, NameFrom, EntryFrom, UtilFrom, IncumbentFrom, ExpectedFrom,
         Number, Finish, PathNamed, ListsNamed, TermsNamed, MovesNamed, Speakable, Clean;
    PathRead(a, l);
    PolicyRead(a, l);
    QosRead(a);
    OccupiedRead(a, l);
    ProvenanceRead(a);
  }

  lemma LineHeld(d: Draft, line: string, l: Limits)
    requires Held(d, l)
    ensures StaysHeld(ReadLine(d, line, l), l)
  {
    hide Words, Clean, Held, Apply, Pairs, Recognize;
    var s := line[..IndexOf(line, '#')];
    WordsAreClean(s);
    var words := Words(s);
    if ReadLine(d, line, l).Ok? && words != [] {
      var tokens := words[1..];
      assert forall w <- tokens :: w in words;
      if Recognize(words[0]) != Some(VersionLine) {
        PairsWordy(tokens, map[]);
        ApplyHeld(d, Recognize(words[0]).value, ArgsOf(tokens).value, l);
      }
    }
  }

  lemma {:induction false} LinesHeld(d: Draft, lines: seq<string>, l: Limits)
    requires Held(d, l)
    ensures StaysHeld(ReadLines(d, lines, l), l)
    decreases |lines|
  {
    hide Held, ReadLine;
    if lines != [] {
      LineHeld(d, lines[0], l);
      if ReadLine(d, lines[0], l).Ok? { LinesHeld(ReadLine(d, lines[0], l).value, lines[1..], l); }
    }
  }

  /** Any text that is accepted denotes a request within these bounds. */
  lemma AcceptedIsHeld(text: string, l: Limits)
    ensures IsHeld(Parse(text, l), l)
  {
    hide ReadLines, Split, ListsNamed, TermsNamed, MovesNamed, PathNamed;
    StartHeld(l);
    LinesHeld(START, Split(text, '\n'), l);
  }

  lemma StartHeld(l: Limits)
    ensures Held(START, l)
  {
  }

  // ---- what cannot be written ----------------------------------------------------------------------------------------

  function Spoken(b: seq<byte>): seq<byte> { if b == [] then [45] else b }

  function Whole(i: Incumbent): Incumbent {
    if RefValid(i.reservation) then i else i.(reservation := NO_REF)
  }

  /** The request that the writer puts in place of this one: a dash for no phrase, no half of a reservation. */
  function Expressed(r: Request): Request {
    var p := r.provenance;
    r.(incumbent := if r.incumbent.Some? then Some(Whole(r.incumbent.value)) else None,
       provenance := p.(producer := Spoken(p.producer), version := Spoken(p.version)))
  }

  lemma DashSpoken()
    ensures PhraseText([45]) == "-" && Speakable([45])
  {
    assert TextOf([45]) == "-";
  }

  lemma SpokenSame(b: seq<byte>)
    ensures PhraseText(Spoken(b)) == PhraseText(b)
    ensures Said(b) ==> Speakable(Spoken(b))
  {
    DashSpoken();
  }

  lemma ExpressedSame(r: Request)
    ensures Write(Expressed(r)) == Write(r)
  {
    hide Render, PathLines, EntryLines, UtilLines, OccupiedLines, LineOf, Decimal, RefText, PhraseText, Spoken, SignedText;
    SpokenSame(r.provenance.producer);
    SpokenSame(r.provenance.version);
    assert ProvenanceItems(Expressed(r).provenance) == ProvenanceItems(r.provenance);
    assert IncumbentLines(Expressed(r).incumbent) == IncumbentLines(r.incumbent);
    LinesParts(r);
    LinesParts(Expressed(r));
    hide LinesOf;
    assert LinesOf(Expressed(r)) == LinesOf(r);
  }

  /** Within the bounds, what the writer expresses can be written, unless the time of observation is negative. */
  lemma HeldIsWritable(r: Request, l: Limits)
    requires Held(Draft(r, {PolicyLine}), l) && r.provenance.observed >= 0
    ensures Writable(Expressed(r), l)
  {
    hide PathNamed, ListsNamed, TermsNamed, MovesNamed, Speakable, Said;
    SpokenSame(r.provenance.producer);
    SpokenSame(r.provenance.version);
    SaidIs(r.provenance.producer);
    SaidIs(r.provenance.version);
  }

  lemma SaidIs(b: seq<byte>)
    ensures Said(b) <==> b == [] || Speakable(b)
  {
  }

  /**
   A request within the reader's bounds is read back with a dash for an empty phrase and without half of a
   reservation, and with everything else unchanged.
   */
  lemma ExpressedRead(r: Request, l: Limits)
    requires Held(Draft(r, {PolicyLine}), l) && r.provenance.observed >= 0
    ensures Parse(Write(r), l) ==
            if LinesShort(LinesOf(Expressed(r))) && |Write(r)| <= MAX_DOCUMENT then Ok(Expressed(r)) else Err(OVERSIZE_REQUEST)
  {
    hide Parse, Write, LinesOf, LinesShort, Held, Writable, Expressed;
    HeldIsWritable(r, l);
    ExpressedSame(r);
    RoundTrip(Expressed(r), l);
  }

  // ---- a negative time of observation -----------------------------------------------------------------------------------

  lemma NegativeUnread(n: i64)
    requires n < 0
    ensures ToNumber(SignedText(n)) == Err(INVALID_FIELD_VALUE) && Clean(SignedText(n))
  {
    var s := SignedText(n);
    DecimalClean(-(n as int));
    assert s[0] == '-' && !IsDigit(s[0]);
    forall i | 0 <= i < |s| ensures !Blank(s[i]) && s[i] != '#' {
      if i > 0 { assert s[i] == Decimal(-(n as int))[i - 1]; }
    }
  }

  lemma NegativeOrderly(p: Provenance)
    requires Speakable(p.producer) && Speakable(p.version) && p.observed < 0
    ensures Orderly(ProvenanceItems(p))
  {
    hide Decimal, Clean, Neat, Keyed, Distinct, Speakable, SignedText;
    NegativeNeat(p);
    ProvenanceKeyed(p);
    KeysClean();
    KeysDistinct();
    ItemsOrderly(ProvenanceItems(p), PROVENANCE_KEYS);
  }

  lemma NegativeNeat(p: Provenance)
    requires Speakable(p.producer) && Speakable(p.version) && p.observed < 0
    ensures Neat(ProvenanceItems(p))
  {
    hide Decimal, Clean, SignedText;
    NumClean(p.sequence);
    NegativeUnread(p.observed);
    SpeakableSaid(p.producer);
    SpeakableSaid(p.version);
  }

  lemma NegativeLine(d: Draft, p: Provenance, l: Limits)
    requires ProvenanceLine !in d.seen && Speakable(p.producer) && Speakable(p.version) && p.observed < 0
    ensures var words := LineOf(ProvenanceLine, ProvenanceItems(p)); WordsClean(words) && ReadWords(d, words, l).Err?
  {
    hide Clean, Orderly, Says, Keyed, LineOf, ReadWords, WordsClean, Number, Phrase, Finish, SignedText, ToNumber, Speakable, PhraseText, Decimal;
    NegativeOrderly(p);
    var items := ProvenanceItems(p);
    LineClean(ProvenanceLine, items);
    var a := WordsBack(d, ProvenanceLine, items, l);
    Found(a, items, 3);
    NegativeUnread(p.observed);
  }

  /** Lines that are refused somewhere are refused as a text. */
  lemma {:induction false} TextsRefused(d: Draft, lines: seq<seq<string>>, l: Limits)
    requires (forall line <- lines :: WordsClean(line)) && Fold(d, lines, l).Err?
    ensures ReadLines(d, Texts(lines), l).Err?
    decreases |lines|
  {
    hide WordsClean, ReadWords, ReadLine, Spaced;
    assert lines[0] in lines && forall line <- lines[1..] :: line in lines;
    LineRead(d, lines[0], l);
    assert Texts(lines)[1..] == Texts(lines[1..]);
    if ReadWords(d, lines[0], l).Ok? && |Spaced(lines[0])| <= MAX_LINE {
      TextsRefused(ReadWords(d, lines[0], l).value, lines[1..], l);
    }
  }

  lemma FoldStops(d: Draft, x: seq<seq<string>>, d1: Draft, bad: seq<string>, y: seq<seq<string>>, l: Limits)
    requires Leads(d, x, d1, l) && WordsClean(bad) && ReadWords(d1, bad, l).Err? && forall line <- y :: WordsClean(line)
    ensures (forall line <- x + ([bad] + y) :: WordsClean(line)) && Fold(d, x + ([bad] + y), l).Err?
  {
    hide ReadWords, WordsClean;
    FoldJoin(d, x, [bad] + y, l);
  }

  lemma NegativeRefused(r: Request, l: Limits)
    requires Writable(r.(provenance := r.provenance.(observed := 0)), l) && r.provenance.observed < 0
    ensures Parse(Write(r), l).Err?
  {
    hide Leads, FirstLines, MiddleLines, LateLines, LinesOf, Render, Split, ReadLines, Fold, WordsClean, ReadWords, LineOf, Speakable,
         PathNamed, ListsNamed, TermsNamed, MovesNamed, ProvenanceItems, Orderly;
    var r0 := r.(provenance := r.provenance.(observed := 0));
    var d := MostLeads(r0, l);
    var x := FirstLines(r) + MiddleLines(r) + LateLines(r);
    assert FirstLines(r0) + MiddleLines(r0) + LateLines(r0) == x by { SameHead(r, r0); }
    var bad := LineOf(ProvenanceLine, ProvenanceItems(r.provenance));
    NegativeLine(d, r.provenance, l);
    var last := LineOf(AttemptLine, [Num("id", r.attempt)]);
    AttemptOrderly(r.attempt);
    LineClean(AttemptLine, [Num("id", r.attempt)]);
    FoldStops(START, x, d, bad, [last], l);
    LinesParts(r);
    assert LinesOf(r) == x + ([bad] + [last]);
    TextsRefused(START, LinesOf(r), l);
    RenderSplit(LinesOf(r));
  }

  lemma SameHead(r: Request, s: Request)
    requires s == r.(provenance := s.provenance)
    ensures FirstLines(s) == FirstLines(r) && MiddleLines(s) == MiddleLines(r) && LateLines(s) == LateLines(r)
  {
  }

  // ---- exactly ------------------------------------------------------------------------------------------------------------

  /**
   Exactly which requests are read back whole from what is written: those the text can express, whose lines
   and document keep to the bounds on their length.
   */
  lemma RoundTripExactly(r: Request, l: Limits)
    ensures Parse(Write(r), l) == Ok(r) <==> Writable(r, l) && LinesShort(LinesOf(r)) && |Write(r)| <= MAX_DOCUMENT
  {
    hide Parse, Write, LinesOf, LinesShort, Held, Writable;
    if Writable(r, l) {
      RoundTrip(r, l);
    }
    if Parse(Write(r), l) == Ok(r) {
      AcceptedIsHeld(Write(r), l);
      OnlyExpressed(r, l);
      RoundTrip(r, l);
    }
  }

  lemma OnlyExpressed(r: Request, l: Limits)
    requires Parse(Write(r), l) == Ok(r) && Held(Draft(r, {PolicyLine}), l)
    ensures Writable(r, l)
  {
    hide Parse, Write, LinesOf, LinesShort, Held, Writable, Expressed;
    var e := Expressed(r);
    ExpressedSame(r);
    if r.provenance.observed < 0 {
      var r0 := r.(provenance := r.provenance.(observed := 0));
      HeldTimeless(r, r0, l);
      HeldIsWritable(r0, l);
      ExpressedTimeless(r, r0);
      NegativeRefused(e, l);
    } else {
      HeldIsWritable(r, l);
      RoundTrip(e, l);
    }
  }

  lemma HeldTimeless(r: Request, r0: Request, l: Limits)
    requires Held(Draft(r, {PolicyLine}), l) && r0 == r.(provenance := r.provenance.(observed := 0))
    ensures Held(Draft(r0, {PolicyLine}), l)
  {
    hide PathNamed, ListsNamed, TermsNamed, MovesNamed, Said;
  }

  lemma ExpressedTimeless(r: Request, r0: Request)
    requires r0 == r.(provenance := r.provenance.(observed := 0))
    ensures Expressed(r0) == Expressed(r).(provenance := Expressed(r).provenance.(observed := 0))
    ensures Expressed(r).provenance.observed == r.provenance.observed
  {
  }
}
