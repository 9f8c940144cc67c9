/** The loop over the lines of a scenario. */
module ScenarioParser {
  import opened Bytes
  import opened Records
  import opened Model
  import opened ScenarioText
  import opened Scenario

  /** One line, its comment cut off, word by word. */
  method ParseLine(d: Draft, line: string, l: Limits) returns (r: Result<Draft>)
    ensures r == ReadLine(d, line, l)
  {
    if |line| > MAX_LINE { return Err(OVERSIZE_REQUEST); }
    var comment := Find(line, '#', 0);
    assert line[0..comment] == line[..comment];
    IndexAt(line, '#', comment);
    var tokens := SplitWhitespace(line[..comment]);
    if tokens == [] { return Ok(d); }
    var directive := Recognize(tokens[0]);
    if directive == Some(VersionLine) { return ReadVersion(d, tokens[1..]); }
    var args := ParseArgs(tokens[1..]);
    if args.Err? { return Err(args.code); }
    if directive.None? { return Err(MALFORMED_REQUEST); }
    return Apply(d, directive.value, args.value, l);
  }

  /** Line after line until one is refused, then the check that the required directives were there. */
  method ParseScenario(text: string, l: Limits) returns (r: Result<Request>)
    ensures r == Parse(text, l)
  {
    hide ReadLine, Split;
    if |text| > MAX_DOCUMENT { return Err(OVERSIZE_REQUEST); }
    var d := Draft(NOTHING_ASKED, {});
    ghost var lines := Split(text, '\n');
    var position := 0;
    assert text[0..] == text;
    while position <= |text|
      invariant 0 <= position <= |text| + 1
      invariant ReadLines(Draft(NOTHING_ASKED, {}), lines, l) ==
                if position <= |text| then ReadLines(d, Split(text[position..], '\n'), l) else Ok(d)
    {
      var end := Find(text, '\n', position);
      SplitStep(text, '\n', position, end);
      var line := text[position..end];
      assert end == |text| ==> line == text[position..];
      ghost var more := if end == |text| then [] else Split(text[end + 1..], '\n');
      assert Split(text[position..], '\n') == [line] + more;
      assert ([line] + more)[1..] == more;
      var next := ParseLine(d, line, l);
      if next.Err? { return Err(next.code); }
      d := next.value;
      position := end + 1;
    }
    return Completed(d);
  }
}
