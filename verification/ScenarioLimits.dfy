/** Where the scenario text gives out: a valid request whose rendering is refused. */
module ScenarioLimits {
  import opened Bytes
  import opened Records
  import opened Sorting
  import opened Model
  import opened Validation
  import opened ScenarioText
  import opened Scenario
  import opened ScenarioWriter
  import opened ScenarioArgs
  import opened ScenarioLines
  import opened ScenarioTheorems
  import opened ScenarioUnknown

  lemma {:induction false} JoinLong(parts: seq<string>)
    requires parts != [] && forall p <- parts :: p != ""
    ensures |Join(parts, ',')| >= 2 * |parts| - 1
    decreases |parts|
  {
    assert parts[0] in parts;
    if |parts| > 1 {
      assert forall p <- parts[1..] :: p in parts;
      JoinLong(parts[1..]);
    }
  }

  lemma ThreeWords(x: string, y: string, z: string)
    ensures Spaced([x, y, z]) == x + " " + (y + " " + z)
  {
    var three, two, one := [x, y, z], [y, z], [z];
    assert three[1..] == two && two[1..] == one;
    assert Spaced(two) == y + " " + Spaced(one) == y + " " + z;
    assert Spaced(three) == x + " " + Spaced(two);
  }

  /** More than half as many occupied domains as a line has characters make the line too long. */
  lemma WideLine(domains: seq<u64>)
    requires 2 * |domains| > MAX_LINE
    ensures OccupiedLines(domains) != [] && |Spaced(OccupiedLines(domains)[0])| > MAX_LINE
  {
    hide Decimal;
    var parts := Each(domains, NumberText);
    forall p | p in parts ensures p != "" {
      var i :| 0 <= i < |parts| && parts[i] == p;
    }
    JoinLong(parts);
    var value := ListText(domains, NumberText);
    var line := OccupiedLines(domains)[0];
    var items := [Here("domains", value)];
    assert items[1..] == [] && Flat([]) == [];
    assert Flat(items) == ["domains", value];
    assert line == ["occupied", "domains", value];
    ThreeWords("occupied", "domains", value);
  }

  /** So many occupied domains are never read back, though validation may admit them. */
  lemma WideRefused(r: Request, l: Limits)
    requires Writable(r, l) && 2 * |r.occupied| > MAX_LINE
    ensures Parse(Write(r), l) == Err(OVERSIZE_REQUEST)
  {
    hide Writable, Parse, Write, OccupiedLines, Spaced, FirstLines, MiddleLines;
    RoundTrip(r, l);
    WideLine(r.occupied);
    LinesParts(r);
    var line := OccupiedLines(r.occupied)[0];
    assert line in OccupiedLines(r.occupied);
    assert line in LateLines(r) by { hide IncumbentLines, LineOf; }
    assert line in LinesOf(r) by { hide LinesOf, LateLines, LastLines; }
  }

  const RULES := Rules([Objective(COST, MINIMIZE)], None, None, None, false, 0, false, 0, 0, false, 0, 0, false, 0, 0, 0, 0, 0)
  /** The bounds that apply when a caller sets none. */
  const LIMITS := Limits(0x10_0000, 0x20_0000, 0x20_0000, 0x10_0000, 8, 32, 16, 4096, 256, 32, 4, 64)

  /** A request with forty thousand occupied domains, within the bounds of reader and validator. */
  function Wide(): Request {
    Request(Name(1, 1), Name(1, 1), [], Name(1, 1), [], Qos(1, 1, 0, 0, 1, 0), Policy(1, 1, RULES, [], [], [], [], [], []), Name(0, 0), [],
            None, seq(40000, i => 1), Expected(1, 1, 1, 1, 1, 1, 0), Provenance([45], [45], 0, 0), 1)
  }

  /** A valid request that is not read back from what is written. */
  lemma ValidButRefused()
    ensures ValidateRequest(Wide(), LIMITS) == OK && Parse(Write(Wide()), LIMITS) == Err(OVERSIZE_REQUEST)
  {
    hide ValidateRequest, Parse, Write;
    AcceptsExactly(Wide(), LIMITS);
    assert TextOf([45]) == "-";
    WideRefused(Wide(), LIMITS);
  }

  // ---- a text with an unknown key ------------------------------------------------------------------------------------------

  /** A request for one unit over no candidates at all. */
  const PLAIN := Request(
    Name(1, 1), Name(1, 1), [], Name(1, 1), [], Qos(1, 1, 0, 0, 1, 0), Policy(1, 1, RULES, [], [], [], [], [], []), Name(0, 0), [],
    None, [], Expected(1, 1, 1, 1, 1, 1, 0), Provenance([45], [45], 0, 0), 1)

  predicate Brief(w: string) { |w| <= 40 }

  predicate BriefLine(line: seq<string>) { |line| <= 60 && forall w <- line :: Brief(w) }

  lemma {:induction false} SpacedBound(words: seq<string>)
    requires forall w <- words :: Brief(w)
    ensures |Spaced(words)| <= 41 * |words|
    decreases |words|
  {
    if words != [] {
      assert words[0] in words && Brief(words[0]) && forall w <- words[1..] :: w in words;
      SpacedBound(words[1..]);
    }
  }

  lemma {:induction false} RenderBound(lines: seq<seq<string>>)
    requires forall line <- lines :: BriefLine(line)
    ensures LinesShort(lines) && |Render(lines)| <= 3000 * |lines|
    decreases |lines|
  {
    hide Spaced, BriefLine;
    if lines != [] {
      assert lines[0] in lines && forall line <- lines[1..] :: line in lines;
      RenderBound(lines[1..]);
      LineBound(lines[0]);
    }
  }

  lemma LineBound(line: seq<string>)
    requires BriefLine(line)
    ensures |Spaced(line)| <= 2460
  {
    hide Spaced;
    SpacedBound(line);
  }

  /** The items have short keys and short values. */
  predicate BriefItems(items: seq<Item>) {
    |items| <= 29 && forall i :: 0 <= i < |items| ==> Brief(items[i].key) && (items[i].value.Some? ==> Brief(items[i].value.value))
  }

  lemma {:induction false} FlatBrief(items: seq<Item>)
    requires BriefItems(items)
    ensures |Flat(items)| <= 2 * |items| && forall w <- Flat(items) :: Brief(w)
    decreases |items|
  {
    hide Brief;
    if items != [] {
      assert forall i :: 0 <= i < |items[1..]| ==> items[1..][i] == items[i + 1];
      FlatBrief(items[1..]);
    }
  }

  lemma LineBrief(line: Directive, items: seq<Item>)
    requires BriefItems(items)
    ensures BriefLine(LineOf(line, items))
  {
    hide Flat;
    FlatBrief(items);
  }

  lemma DigitsBrief()
    ensures forall n: nat :: n < 10 ==> Brief(Decimal(n))
  {
  }

  lemma PolicyBrief()
    ensures BriefItems(ListsItems(PLAIN.policy)) && BriefItems(TermsItems(PLAIN.policy)) && BriefItems(MovesItems(PLAIN.policy))
  {
    hide Decimal;
    DigitsBrief();
    var o := [Objective(COST, MINIMIZE)];
    var text := ObjectiveText(o[0]);
    assert Each(o, ObjectiveText) == [text];
    assert Join([text], ',') == text && Brief(text);
  }

  lemma JoinedBrief(x: seq<Item>, y: seq<Item>)
    requires BriefItems(x) && BriefItems(y) && |x| + |y| <= 29
    ensures BriefItems(x + y)
  {
  }

  /** No line of the request, with a cost on the flow line, is long. */
  lemma PlainBrief()
    ensures forall line <- LinesAnd(PLAIN, "cost", "9") :: BriefLine(line)
  {
    hide Decimal, LineOf, PolicyItems, BriefLine;
    DigitsBrief();
    PlainItemsBrief();
    LineBrief(FlowLine, NameAnd(PLAIN.flow, "cost", "9"));
    LineBrief(CandidatesetLine, NameItems(PLAIN.candidates));
    LineBrief(CapacityLine, NameItems(PLAIN.capacity));
    LineBrief(QosLine, QosItems(PLAIN.qos));
    LineBrief(EvidenceLine, NameItems(PLAIN.evidence));
    LineBrief(PolicyLine, PolicyItems(PLAIN.policy));
    LineBrief(ExpectedLine, ExpectedItems(PLAIN.expected));
    LineBrief(ProvenanceLine, ProvenanceItems(PLAIN.provenance));
    LineBrief(AttemptLine, [Num("id", PLAIN.attempt)]);
    assert BriefLine(["version", Decimal(FORMAT_VERSION)]) by { VersionBrief(); }
  }

  lemma VersionBrief()
    ensures BriefLine(["version", Decimal(FORMAT_VERSION)])
  {
    hide Decimal;
    DigitsBrief();
  }

  lemma PlainItemsBrief()
    ensures BriefItems(NameAnd(PLAIN.flow, "cost", "9")) && BriefItems(NameItems(PLAIN.candidates))
    ensures BriefItems(NameItems(PLAIN.capacity)) && BriefItems(NameItems(PLAIN.evidence)) && BriefItems([Num("id", PLAIN.attempt)])
    ensures BriefItems(QosItems(PLAIN.qos)) && BriefItems(ExpectedItems(PLAIN.expected))
    ensures BriefItems(ProvenanceItems(PLAIN.provenance)) && BriefItems(PolicyItems(PLAIN.policy))
  {
    hide Decimal, ListsItems, TermsItems, MovesItems;
    DigitsBrief();
    PolicyBrief();
    PolicyCounts();
    var n := NameItems(Name(1, 1));
    JoinedBrief(n, ListsItems(PLAIN.policy));
    JoinedBrief(n + ListsItems(PLAIN.policy), TermsItems(PLAIN.policy));
    JoinedBrief(n + ListsItems(PLAIN.policy) + TermsItems(PLAIN.policy), MovesItems(PLAIN.policy));
  }

  lemma PolicyCounts()
    ensures |ListsItems(PLAIN.policy)| == 9 && |TermsItems(PLAIN.policy)| == 8 && |MovesItems(PLAIN.policy)| == 7
  {
    hide Decimal, ListText, NameIn;
  }

  lemma PlainWritable()
    ensures Writable(PLAIN, LIMITS)
  {
    assert TextOf([45]) == "-";
  }

  /** A text whose flow line has a cost, a key that only a path has, and which is read all the same. */
  lemma UnknownKeyExample()
    ensures "cost" !in NAME_KEYS && Parse(Render(LinesAnd(PLAIN, "cost", "9")), LIMITS) == Ok(PLAIN)
  {
    hide Parse, Render, LinesAnd, Writable, LinesShort, BriefLine;
    PlainWritable();
    PlainBrief();
    CleanWords1();
    assert Clean("9");
    RenderBound(LinesAnd(PLAIN, "cost", "9"));
    assert |LinesAnd(PLAIN, "cost", "9")| <= 20 by { PlainCount(); }
    UnknownKeyAccepted(PLAIN, "cost", "9", LIMITS);
  }

  lemma PlainCount()
    ensures |LinesAnd(PLAIN, "cost", "9")| <= 20
  {
    hide LineOf, NameItems, NameAnd, QosItems, PolicyItems, ExpectedItems, ProvenanceItems, Decimal;
  }
}
