/** Words, lists and numbers as text, and how they are read back. */
module ScenarioText {
  import opened Bytes
  import opened Records

  // ---- splitting at a character ------------------------------------------------------------------------

  function IndexOf(s: string, c: char): (i: nat)
    ensures i <= |s| && c !in s[..i] && (i < |s| ==> s[i] == c)
  {
    if s == "" || s[0] == c then 0
    else
      var n := IndexOf(s[1..], c);
      assert s[..n + 1] == [s[0]] + s[1..][..n];
      n + 1
  }

  /** The parts between the occurrences of c: one more than there are. */
  function Split(s: string, c: char): (parts: seq<string>)
    ensures parts != []
    decreases |s|
  {
    var i := IndexOf(s, c);
    if i == |s| then [s] else [s[..i]] + Split(s[i + 1..], c)
  }

  function Join(parts: seq<string>, c: char): string
    requires parts != []
  {
    if |parts| == 1 then parts[0] else parts[0] + [c] + Join(parts[1..], c)
  }

  lemma {:induction false} IndexAt(s: string, c: char, i: nat)
    requires i <= |s| && (forall k :: 0 <= k < i ==> s[k] != c) && (i < |s| ==> s[i] == c)
    ensures IndexOf(s, c) == i
    decreases i
  {
    if i > 0 { IndexAt(s[1..], c, i - 1); }
  }

  /** Parts free of the separator come back. */
  lemma {:induction false} SplitJoin(parts: seq<string>, c: char)
    requires parts != [] && forall p <- parts :: c !in p
    ensures Split(Join(parts, c), c) == parts
    decreases |parts|
  {
    assert parts[0] in parts;
    if |parts| == 1 {
      IndexAt(parts[0], c, |parts[0]|);
    } else {
      var rest := Join(parts[1..], c);
      var s := parts[0] + [c] + rest;
      IndexAt(s, c, |parts[0]|);
      assert s[..|parts[0]|] == parts[0] && s[|parts[0]| + 1..] == rest;
      assert forall p <- parts[1..] :: p in parts;
      SplitJoin(parts[1..], c);
    }
  }

  // ---- words ---------------------------------------------------------------------------------------------

  predicate Blank(c: char) { c == ' ' || c == '\t' || c == '\r' || c == '\n' }

  function WordLength(s: string): (n: nat)
    ensures n <= |s| && (forall i :: 0 <= i < n ==> !Blank(s[i])) && (n < |s| ==> Blank(s[n]))
  {
    if s == "" || Blank(s[0]) then 0 else 1 + WordLength(s[1..])
  }

  /** The maximal stretches free of blanks, in order. */
  function Words(s: string): seq<string>
    decreases |s|
  {
    if s == "" then []
    else if Blank(s[0]) then Words(s[1..])
    else var n := WordLength(s); [s[..n]] + Words(s[n..])
  }

  /** A word: not empty, no blanks and no comment mark. */
  predicate Clean(w: string) {
    w != "" && forall i :: 0 <= i < |w| ==> !Blank(w[i]) && w[i] != '#'
  }

  function Spaced(words: seq<string>): string {
    if words == [] then "" else if |words| == 1 then words[0] else words[0] + " " + Spaced(words[1..])
  }

  lemma {:induction false} WordAt(s: string, n: nat)
    requires n <= |s| && (forall k :: 0 <= k < n ==> !Blank(s[k])) && (n < |s| ==> Blank(s[n]))
    ensures WordLength(s) == n
    decreases n
  {
    if n > 0 { WordAt(s[1..], n - 1); }
  }

  lemma WordFirst(w: string, rest: string)
    requires Clean(w) && (rest == "" || Blank(rest[0]))
    ensures Words(w + rest) == [w] + Words(rest)
  {
    var s := w + rest;
    WordAt(s, |w|);
    assert s[..|w|] == w && s[|w|..] == rest;
  }

  lemma BlankSkipped(s: string)
    ensures Words(" " + s) == Words(s)
  {
    assert (" " + s)[1..] == s;
  }

  /** Words written with single spaces between them are the words read. */
  lemma {:induction false} WordsSpaced(words: seq<string>)
    requires forall w <- words :: Clean(w)
    ensures Words(Spaced(words)) == words
    decreases |words|
  {
    hide Words, Clean, Spaced;
    SpacedFront(words);
    if words == [] {
      NoWords();
    } else {
      assert words[0] in words;
      if |words| == 1 {
        WordFirst(words[0], "");
        NoWords();
        assert words[0] + "" == words[0] && words == [words[0]];
      } else {
        assert forall w <- words[1..] :: w in words;
        WordsSpaced(words[1..]);
        SpacedOn(words[0], Spaced(words[1..]), words[1..]);
        assert words == [words[0]] + words[1..];
      }
    }
  }

  lemma SpacedFront(words: seq<string>)
    ensures words == [] ==> Spaced(words) == ""
    ensures |words| == 1 ==> Spaced(words) == words[0]
    ensures |words| > 1 ==> Spaced(words) == words[0] + (" " + Spaced(words[1..]))
  {
    if |words| > 1 {
      assert words[0] + " " + Spaced(words[1..]) == words[0] + (" " + Spaced(words[1..]));
    }
  }

  lemma SpacedOn(w: string, text: string, more: seq<string>)
    requires Clean(w) && Words(text) == more
    ensures Words(w + (" " + text)) == [w] + more
  {
    hide Words, Clean;
    WordFirst(w, " " + text);
    BlankSkipped(text);
  }

  lemma NoWords()
    ensures Words("") == []
  {
  }

  lemma {:induction false} SpacedFree(words: seq<string>)
    requires forall w <- words :: Clean(w)
    ensures '#' !in Spaced(words) && '\n' !in Spaced(words)
    decreases |words|
  {
    if words != [] {
      assert words[0] in words && Clean(words[0]);
      assert forall x <- words[1..] :: x in words;
      SpacedFree(words[1..]);
    }
  }

  /** Words(s) from a blank on, and from the end of a word on. */
  lemma WordsFrom(s: string, n: nat)
    ensures s != "" && Blank(s[0]) ==> Words(s) == Words(s[1..])
    ensures 0 < n <= |s| && (forall i :: 0 <= i < n ==> !Blank(s[i])) && (n < |s| ==> Blank(s[n])) ==>
              Words(s) == [s[..n]] + Words(s[n..])
  {
    if 0 < n <= |s| && (forall i :: 0 <= i < n ==> !Blank(s[i])) && (n < |s| ==> Blank(s[n])) { WordAt(s, n); }
  }

  /** The loop over blanks and words. */
  method SplitWhitespace(text: string) returns (tokens: seq<string>)
    ensures tokens == Words(text)
  {
    hide Words;
    tokens := [];
    var index := 0;
    assert text[0..] == text;
    while index < |text|
      invariant 0 <= index <= |text| && tokens + Words(text[index..]) == Words(text)
    {
      while index < |text| && Blank(text[index])
        invariant 0 <= index <= |text| && tokens + Words(text[index..]) == Words(text)
      {
        WordsFrom(text[index..], 0);
        assert text[index..][1..] == text[index + 1..];
        index := index + 1;
      }
      var start := index;
      while index < |text| && !Blank(text[index])
        invariant start <= index <= |text| && forall i :: start <= i < index ==> !Blank(text[i])
      {
        index := index + 1;
      }
      if index > start {
        var n := index - start;
        WordsFrom(text[start..], n);
        assert text[start..][..n] == text[start..index] && text[start..][n..] == text[index..];
        assert forall i :: 0 <= i < n ==> text[start..][i] == text[start + i];
        assert tokens + ([text[start..index]] + Words(text[index..])) == (tokens + [text[start..index]]) + Words(text[index..]);
        tokens := tokens + [text[start..index]];
      }
    }
    NoWords();
    assert text[index..] == "";
  }

  /** Bounds the number of parts before it makes them; a text without the separator is one part under any bound. */
  function SplitBounded(s: string, limit: nat): Option<seq<string>> {
    var parts := Split(s, ',');
    if |parts| > 1 && |parts| > limit then None else Some(parts)
  }

  lemma {:induction false} PartsCount(s: string, c: char)
    ensures |Split(s, c)| == 1 + multiset(s)[c]
    decreases |s|
  {
    var i := IndexOf(s, c);
    assert multiset(s[..i])[c] == 0;
    if i == |s| {
      assert s[..i] == s;
    } else {
      var rest := s[i + 1..];
      assert s == s[..i] + [c] + rest;
      PartsCount(rest, c);
    }
  }

  lemma SplitStep(text: string, c: char, start: nat, stop: nat)
    requires start <= stop <= |text| && c !in text[start..stop] && (stop < |text| ==> text[stop] == c)
    ensures Split(text[start..], c) ==
            if stop == |text| then [text[start..]] else [text[start..stop]] + Split(text[stop + 1..], c)
  {
    var rest := text[start..];
    assert forall k :: 0 <= k < stop - start ==> rest[k] == text[start..stop][k];
    IndexAt(rest, c, stop - start);
    if stop < |text| {
      assert rest[..stop - start] == text[start..stop] && rest[stop - start + 1..] == text[stop + 1..];
    }
  }

  /** The next place of a character, or the end. */
  method Find(text: string, c: char, start: nat) returns (stop: nat)
    requires start <= |text|
    ensures start <= stop <= |text| && c !in text[start..stop] && (stop < |text| ==> text[stop] == c)
  {
    stop := start;
    while stop < |text| && text[stop] != c
      invariant start <= stop <= |text| && c !in text[start..stop]
    {
      assert text[start..stop + 1] == text[start..stop] + [text[stop]];
      stop := stop + 1;
    }
  }

  /** Counts before it cuts, so that a list with too many parts is refused before any is made. */
  method SplitCommas(text: string, maxCount: nat) returns (parts: Option<seq<string>>)
    ensures parts == SplitBounded(text, maxCount)
  {
    hide Split, IndexOf;
    PartsCount(text, ',');
    var elements := 1;
    for i := 0 to |text|
      invariant elements == 1 + multiset(text[..i])[','] && (elements > 1 ==> elements <= maxCount)
    {
      assert text[..i + 1] == text[..i] + [text[i]];
      if text[i] == ',' {
        elements := elements + 1;
        if elements > maxCount {
          assert text == text[..i + 1] + text[i + 1..];
          return None;
        }
      }
    }
    assert text[..|text|] == text;
    var out := CutAtCommas(text);
    return Some(out);
  }

  method CutAtCommas(text: string) returns (out: seq<string>)
    ensures out == Split(text, ',')
  {
    hide Split, IndexOf;
    out := [];
    var start := 0;
    assert text[0..] == text;
    while start <= |text|
      invariant 0 <= start <= |text| && out + Split(text[start..], ',') == Split(text, ',')
      decreases |text| - start
    {
      var comma := Find(text, ',', start);
      SplitStep(text, ',', start, comma);
      if comma == |text| {
        out := out + [text[start..]];
        return;
      }
      out := out + [text[start..comma]];
      start := comma + 1;
    }
  }

  // ---- numbers --------------------------------------------------------------------------------------------

  predicate IsDigit(c: char) { '0' <= c <= '9' }

  function DigitOf(c: char): (d: nat)
    requires IsDigit(c)
    ensures d < 10
  {
    c as int - '0' as int
  }

  function DigitChar(d: nat): (c: char)
    requires d < 10
    ensures IsDigit(c) && DigitOf(c) == d
  {
    ('0' as int + d) as char
  }

  predicate AllDigits(s: string) { forall i :: 0 <= i < |s| ==> IsDigit(s[i]) }

  function ValueOf(s: string): nat
    requires AllDigits(s)
  {
    if s == "" then 0 else 10 * ValueOf(s[..|s| - 1]) + DigitOf(s[|s| - 1])
  }

  function Decimal(n: nat): (s: string)
    ensures s != "" && AllDigits(s)
  {
    if n < 10 then [DigitChar(n)] else Decimal(n / 10) + [DigitChar(n % 10)]
  }

  /** Digits only, all of them, and no more than 64 bits. */
  function ParseU64(s: string): Option<u64> {
    if s == "" || !AllDigits(s) || ValueOf(s) >= U64_LIMIT then None else Some(ValueOf(s))
  }

  lemma {:induction false} DecimalBack(n: nat)
    ensures ValueOf(Decimal(n)) == n
    decreases n
  {
    var s := Decimal(n);
    if n < 10 {
      assert s[..0] == "" && ValueOf("") == 0;
    } else {
      DecimalBack(n / 10);
      assert s[..|s| - 1] == Decimal(n / 10);
    }
  }

  lemma NumberBack(n: u64)
    ensures ParseU64(Decimal(n)) == Some(n)
  {
    DecimalBack(n);
  }

  lemma DecimalClean(n: nat)
    ensures Clean(Decimal(n)) && ',' !in Decimal(n) && ':' !in Decimal(n)
  {
    forall i | 0 <= i < |Decimal(n)| ensures !Blank(Decimal(n)[i]) && Decimal(n)[i] != '#' && Decimal(n)[i] != ',' && Decimal(n)[i] != ':' {
      assert IsDigit(Decimal(n)[i]);
    }
  }

  // ---- a word out of a fixed list ---------------------------------------------------------------------------

  /** The place of a word in a table of names. */
  function PlaceIn(table: seq<string>, w: string): (r: Option<nat>)
    ensures r.Some? ==> r.value < |table| && table[r.value] == w
    ensures r.None? ==> w !in table
  {
    if table == [] then None
    else if table[0] == w then Some(0)
    else match PlaceIn(table[1..], w) case None => None case Some(i) => Some(i + 1)
  }

  predicate Distinct(table: seq<string>) { forall i, j :: 0 <= i < j < |table| ==> table[i] != table[j] }

}
