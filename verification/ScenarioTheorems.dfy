/** A request written as a scenario is read back, and exactly when it is not. */
module ScenarioTheorems {
  import opened Bytes
  import opened Records
  import opened Model
  import opened ScenarioText
  import opened Scenario
  import opened ScenarioWriter
  import opened ScenarioArgs
  import opened ScenarioLines

  // ---- whole lines ------------------------------------------------------------------------------------------------------

  predicate WordsClean(line: seq<string>) { forall w <- line :: Clean(w) }

  lemma {:induction false} FlatClean(items: seq<Item>)
    requires Neat(items) && forall i :: 0 <= i < |items| ==> Clean(items[i].key)
    ensures WordsClean(Flat(items))
    decreases |items|
  {
    hide Clean;
    if items != [] {
      var rest := items[1..];
      assert forall i :: 0 <= i < |rest| ==> rest[i] == items[i + 1];
      FlatClean(rest);
    }
  }

  lemma LineClean(line: Directive, items: seq<Item>)
    requires Orderly(items)
    ensures WordsClean(LineOf(line, items))
  {
    hide Clean, Flat, Apart, Neat, Title;
    FlatClean(items);
    TitleClean(line);
  }

  /** The words of a line are read as its directive, applied to its items. */
  lemma WordsBack(d: Draft, line: Directive, items: seq<Item>, l: Limits) returns (a: Args)
    requires line != VersionLine && Orderly(items)
    ensures Holds(a, items) && ReadWords(d, LineOf(line, items), l) == Apply(d, line, a, l)
  {
    hide Clean, Flat, Apart, Neat, Title, Recognize, ArgsOf, Made, Holds, Apply;
    ArgsBack(items);
    Recognized(line);
    a := Made(items, map[]);
    assert LineOf(line, items)[1..] == Flat(items);
  }

  /** The lines one after another, whatever their length. */
  function Fold(d: Draft, lines: seq<seq<string>>, l: Limits): Result<Draft>
    decreases |lines|
  {
    hide *;
    if lines == [] then Ok(d)
    else
      var r := ReadWords(d, lines[0], l);
      if r.Ok? then Fold(r.value, lines[1..], l) else r
  }

  function FoldOn(r: Result<Draft>, lines: seq<seq<string>>, l: Limits): Result<Draft> {
    hide *;
    if r.Ok? then Fold(r.value, lines, l) else r
  }

  /** These lines are words and lead from d to d'. */
  predicate Leads(d: Draft, lines: seq<seq<string>>, d': Draft, l: Limits) {
    (forall line <- lines :: WordsClean(line)) && Fold(d, lines, l) == Ok(d')
  }

  lemma {:induction false} FoldJoin(d: Draft, x: seq<seq<string>>, y: seq<seq<string>>, l: Limits)
    ensures Fold(d, x + y, l) == FoldOn(Fold(d, x, l), y, l)
    decreases |x|
  {
    hide ReadWords;
    if x == [] {
      assert x + y == y;
    } else {
      assert (x + y)[0] == x[0] && (x + y)[1..] == x[1..] + y;
      var r := ReadWords(d, x[0], l);
      if r.Ok? { FoldJoin(r.value, x[1..], y, l); }
    }
  }

  lemma LeadsOn(d: Draft, x: seq<seq<string>>, d1: Draft, y: seq<seq<string>>, d2: Draft, l: Limits)
    requires Leads(d, x, d1, l) && Leads(d1, y, d2, l)
    ensures Leads(d, x + y, d2, l)
  {
    hide Fold, WordsClean;
    FoldJoin(d, x, y, l);
  }

  lemma OneLeads(d: Draft, words: seq<string>, d': Draft, l: Limits)
    requires WordsClean(words) && ReadWords(d, words, l) == Ok(d')
    ensures Leads(d, [words], d', l)
  {
    hide ReadWords, WordsClean;
    assert [words][1..] == [];
    assert Fold(d', [], l) == Ok(d');
  }

  // ---- from line to line --------------------------------------------------------------------------------------------------

  function Put(d: Draft, line: Directive, r: Request): Draft { Draft(r, d.seen + {line}) }

  lemma VersionLeads(d: Draft, l: Limits)
    ensures Leads(d, [["version", Decimal(FORMAT_VERSION)]], d, l)
  {
    hide Clean, Decimal, ParseU64, Recognize, Fold;
    var words := ["version", Decimal(FORMAT_VERSION)];
    TitleClean(VersionLine);
    NumClean(FORMAT_VERSION);
    Recognized(VersionLine);
    NumberBack(FORMAT_VERSION);
    assert words[1..] == [Decimal(FORMAT_VERSION)];
    OneLeads(d, words, d, l);
  }

  predicate Naming(line: Directive) {
    line == FlowLine || line == CandidatesetLine || line == CapacityLine || line == EvidenceLine
  }

  /** The request with an identity given by one of the lines that give nothing else. */
  function Renamed(r: Request, line: Directive, n: Name): Request {
    if line == FlowLine then r.(flow := n)
    else if line == CandidatesetLine then r.(candidates := n)
    else if line == CapacityLine then r.(capacity := n)
    else r.(evidence := n)
  }

  lemma NamedLeads(d: Draft, line: Directive, n: Name, l: Limits)
    requires line !in d.seen && Naming(line)
    ensures Leads(d, [LineOf(line, NameItems(n))], Put(d, line, Renamed(d.request, line, n)), l)
  {
    hide Clean, Orderly, NameItems, NameFrom, Says, Keyed, Finish, LineOf, ReadWords, Fold, WordsClean;
    NameOrderly(n);
    LineClean(line, NameItems(n));
    var a := WordsBack(d, line, NameItems(n), l);
    NameBackFrom(a, n);
    NameKeyed(n);
    FinishOk(a, NameItems(n), NAME_KEYS);
    OneLeads(d, LineOf(line, NameItems(n)), Put(d, line, Renamed(d.request, line, n)), l);
  }

  lemma PathLeads(d: Draft, p: Path, l: Limits)
    requires CandidatesetLine in d.seen && |d.request.paths| < l.maxPaths && PathNamed(p, l)
    ensures Leads(d, [LineOf(PathLine, PathItems(p))], d.(request := d.request.(paths := d.request.paths + [p])), l)
  {
    hide Clean, Orderly, PathItems, PathFrom, Holds, LineOf, ReadWords, Fold, WordsClean;
    PathOrderly(p);
    LineClean(PathLine, PathItems(p));
    var a := WordsBack(d, PathLine, PathItems(p), l);
    PathBack(a, p, l);
    OneLeads(d, LineOf(PathLine, PathItems(p)), d.(request := d.request.(paths := d.request.paths + [p])), l);
  }

  lemma EntryLeads(d: Draft, c: Capacity, l: Limits)
    requires CapacityLine in d.seen && |d.request.capacities| < l.maxCapacities
    ensures Leads(d, [LineOf(EntryLine, EntryItems(c))], d.(request := d.request.(capacities := d.request.capacities + [c])), l)
  {
    hide Clean, Orderly, EntryItems, EntryFrom, Holds, LineOf, ReadWords, Fold, WordsClean;
    EntryOrderly(c);
    LineClean(EntryLine, EntryItems(c));
    var a := WordsBack(d, EntryLine, EntryItems(c), l);
    EntryBack(a, c);
    OneLeads(d, LineOf(EntryLine, EntryItems(c)), d.(request := d.request.(capacities := d.request.capacities + [c])), l);
  }

  lemma UtilLeads(d: Draft, e: Evidence, l: Limits)
    requires |d.request.evidences| < l.maxEvidences
    ensures Leads(d, [LineOf(UtilLine, UtilItems(e))], d.(request := d.request.(evidences := d.request.evidences + [e])), l)
  {
    hide Clean, Orderly, UtilItems, UtilFrom, Holds, LineOf, ReadWords, Fold, WordsClean;
    UtilOrderly(e);
    LineClean(UtilLine, UtilItems(e));
    var a := WordsBack(d, UtilLine, UtilItems(e), l);
    UtilBack(a, e);
    OneLeads(d, LineOf(UtilLine, UtilItems(e)), d.(request := d.request.(evidences := d.request.evidences + [e])), l);
  }

  lemma NothingLeads(d: Draft, l: Limits)
    ensures Leads(d, [], d, l)
  {
  }

  lemma {:induction false} PathsLead(d: Draft, ps: seq<Path>, l: Limits)
    requires CandidatesetLine in d.seen && |d.request.paths| + |ps| <= l.maxPaths && forall p <- ps :: PathNamed(p, l)
    ensures Leads(d, PathLines(ps), d.(request := d.request.(paths := d.request.paths + ps)), l)
    decreases |ps|
  {
    hide Leads, PathNamed, LineOf, PathItems;
    if ps == [] {
      NothingLeads(d, l);
      assert d.request.paths + [] == d.request.paths;
    } else {
      assert ps[0] in ps && forall p <- ps[1..] :: p in ps;
      var d1 := d.(request := d.request.(paths := d.request.paths + [ps[0]]));
      PathLeads(d, ps[0], l);
      PathsLead(d1, ps[1..], l);
      assert d.request.paths + [ps[0]] + ps[1..] == d.request.paths + ps;
      LeadsOn(d, [LineOf(PathLine, PathItems(ps[0]))], d1, PathLines(ps[1..]),
              d.(request := d.request.(paths := d.request.paths + ps)), l);
    }
  }

  lemma {:induction false} EntriesLead(d: Draft, cs: seq<Capacity>, l: Limits)
    requires CapacityLine in d.seen && |d.request.capacities| + |cs| <= l.maxCapacities
    ensures Leads(d, EntryLines(cs), d.(request := d.request.(capacities := d.request.capacities + cs)), l)
    decreases |cs|
  {
    hide Leads, LineOf, EntryItems;
    if cs == [] {
      NothingLeads(d, l);
      assert d.request.capacities + [] == d.request.capacities;
    } else {
      var d1 := d.(request := d.request.(capacities := d.request.capacities + [cs[0]]));
      EntryLeads(d, cs[0], l);
      EntriesLead(d1, cs[1..], l);
      assert d.request.capacities + [cs[0]] + cs[1..] == d.request.capacities + cs;
      LeadsOn(d, [LineOf(EntryLine, EntryItems(cs[0]))], d1, EntryLines(cs[1..]),
              d.(request := d.request.(capacities := d.request.capacities + cs)), l);
    }
  }

  lemma {:induction false} UtilsLead(d: Draft, es: seq<Evidence>, l: Limits)
    requires |d.request.evidences| + |es| <= l.maxEvidences
    ensures Leads(d, UtilLines(es), d.(request := d.request.(evidences := d.request.evidences + es)), l)
    decreases |es|
  {
    hide Leads, LineOf, UtilItems;
    if es == [] {
      NothingLeads(d, l);
      assert d.request.evidences + [] == d.request.evidences;
    } else {
      var d1 := d.(request := d.request.(evidences := d.request.evidences + [es[0]]));
      UtilLeads(d, es[0], l);
      UtilsLead(d1, es[1..], l);
      assert d.request.evidences + [es[0]] + es[1..] == d.request.evidences + es;
      LeadsOn(d, [LineOf(UtilLine, UtilItems(es[0]))], d1, UtilLines(es[1..]),
              d.(request := d.request.(evidences := d.request.evidences + es)), l);
    }
  }

  lemma QosLeads(d: Draft, q: Qos, l: Limits)
    requires QosLine !in d.seen && q.serviceClass <= 3 && q.priority <= 3
    ensures Leads(d, [LineOf(QosLine, QosItems(q))], Put(d, QosLine, d.request.(qos := q)), l)
  {
    hide Clean, Orderly, QosItems, QosFrom, Holds, LineOf, ReadWords, Fold, WordsClean;
    QosOrderly(q);
    LineClean(QosLine, QosItems(q));
    var a := WordsBack(d, QosLine, QosItems(q), l);
    QosBack(a, q);
    OneLeads(d, LineOf(QosLine, QosItems(q)), Put(d, QosLine, d.request.(qos := q)), l);
  }

  lemma PolicyLeads(d: Draft, p: Policy, l: Limits)
    requires PolicyLine !in d.seen && ListsNamed(p, l) && TermsNamed(p, l) && MovesNamed(p)
    ensures Leads(d, [LineOf(PolicyLine, PolicyItems(p))], Put(d, PolicyLine, d.request.(policy := p)), l)
  {
    hide Clean, Orderly, PolicyItems, PolicyFrom, Holds, LineOf, ReadWords, Fold, WordsClean, ListsNamed, TermsNamed, MovesNamed;
    PolicyOrderly(p, l);
    LineClean(PolicyLine, PolicyItems(p));
    var a := WordsBack(d, PolicyLine, PolicyItems(p), l);
    PolicyBack(a, p, l);
    OneLeads(d, LineOf(PolicyLine, PolicyItems(p)), Put(d, PolicyLine, d.request.(policy := p)), l);
  }

  lemma IncumbentLeads(d: Draft, i: Option<Incumbent>, l: Limits) returns (d': Draft)
    requires IncumbentLine !in d.seen && d.request.incumbent.None? && (i.Some? ==> RefWhole(i.value.reservation))
    ensures Leads(d, IncumbentLines(i), d', l)
    ensures d'.request == d.request.(incumbent := i) && d.seen <= d'.seen <= d.seen + {IncumbentLine}
  {
    hide Clean, Orderly, IncumbentItems, IncumbentFrom, Holds, LineOf, ReadWords, Leads, WordsClean;
    if i.Some? {
      IncumbentOrderly(i.value);
      LineClean(IncumbentLine, IncumbentItems(i.value));
      var a := WordsBack(d, IncumbentLine, IncumbentItems(i.value), l);
      IncumbentBack(a, i.value);
      d' := Put(d, IncumbentLine, d.request.(incumbent := i));
      OneLeads(d, LineOf(IncumbentLine, IncumbentItems(i.value)), d', l);
    } else {
      d' := d;
      NothingLeads(d, l);
    }
  }

  lemma OccupiedLeads(d: Draft, domains: seq<u64>, l: Limits) returns (d': Draft)
    requires OccupiedLine !in d.seen && d.request.occupied == [] && ListFits(|domains|, l.maxOccupied)
    ensures Leads(d, OccupiedLines(domains), d', l)
    ensures d'.request == d.request.(occupied := domains) && d.seen <= d'.seen <= d.seen + {OccupiedLine}
  {
    hide Clean, Orderly, OccupiedFrom, Holds, LineOf, ReadWords, Leads, WordsClean, ListText;
    if domains != [] {
      var items := [Here("domains", ListText(domains, NumberText))];
      OccupiedOrderly(domains);
      LineClean(OccupiedLine, items);
      var a := WordsBack(d, OccupiedLine, items, l);
      OccupiedBack(a, domains, l);
      d' := Put(d, OccupiedLine, d.request.(occupied := domains));
      OneLeads(d, LineOf(OccupiedLine, items), d', l);
    } else {
      d' := d;
      NothingLeads(d, l);
    }
  }

  lemma ExpectedLeads(d: Draft, e: Expected, l: Limits)
    requires ExpectedLine !in d.seen
    ensures Leads(d, [LineOf(ExpectedLine, ExpectedItems(e))], Put(d, ExpectedLine, d.request.(expected := e)), l)
  {
    hide Clean, Orderly, ExpectedItems, ExpectedFrom, Holds, LineOf, ReadWords, Fold, WordsClean;
    ExpectedOrderly(e);
    LineClean(ExpectedLine, ExpectedItems(e));
    var a := WordsBack(d, ExpectedLine, ExpectedItems(e), l);
    ExpectedBack(a, e);
    OneLeads(d, LineOf(ExpectedLine, ExpectedItems(e)), Put(d, ExpectedLine, d.request.(expected := e)), l);
  }

  lemma ProvenanceLeads(d: Draft, p: Provenance, l: Limits)
    requires ProvenanceLine !in d.seen && Speakable(p.producer) && Speakable(p.version) && p.observed >= 0
    ensures Leads(d, [LineOf(ProvenanceLine, ProvenanceItems(p))], Put(d, ProvenanceLine, d.request.(provenance := p)), l)
  {
    hide Clean, Orderly, ProvenanceItems, ProvenanceFrom, Holds, LineOf, ReadWords, Fold, WordsClean, Speakable;
    ProvenanceOrderly(p);
    LineClean(ProvenanceLine, ProvenanceItems(p));
    var a := WordsBack(d, ProvenanceLine, ProvenanceItems(p), l);
    ProvenanceBack(a, p);
    OneLeads(d, LineOf(ProvenanceLine, ProvenanceItems(p)), Put(d, ProvenanceLine, d.request.(provenance := p)), l);
  }

  lemma AttemptLeads(d: Draft, n: u64, l: Limits)
    requires AttemptLine !in d.seen
    ensures Leads(d, [LineOf(AttemptLine, [Num("id", n)])], Put(d, AttemptLine, d.request.(attempt := n)), l)
  {
    hide Clean, Orderly, Decimal, Says, Keyed, Number, Finish, LineOf, ReadWords, Fold, WordsClean;
    var items := [Num("id", n)];
    AttemptOrderly(n);
    LineClean(AttemptLine, items);
    var a := WordsBack(d, AttemptLine, items, l);
    NumFound(a, items, 0, "id", n);
    AttemptKeyed(n);
    FinishOk(a, items, ATTEMPT_KEYS);
    OneLeads(d, LineOf(AttemptLine, items), Put(d, AttemptLine, d.request.(attempt := n)), l);
  }

  lemma AttemptKeyed(n: u64)
    ensures Keyed([Num("id", n)], ATTEMPT_KEYS)
  {
    hide Decimal;
  }

  lemma AttemptOrderly(n: u64)
    ensures Orderly([Num("id", n)])
  {
    hide Decimal, Clean, Keyed, Distinct;
    NumClean(n);
    AttemptKeyed(n);
    KeysClean();
    KeysDistinct();
    ItemsOrderly([Num("id", n)], ATTEMPT_KEYS);
  }

  // ---- all the lines of a request ---------------------------------------------------------------------------------------------

  const START := Draft(NOTHING_ASKED, {})

  /** What the text can express, within the reader's bounds on lists. */
  predicate Writable(r: Request, l: Limits) {
    && |r.paths| <= l.maxPaths && (forall p <- r.paths :: PathNamed(p, l))
    && |r.capacities| <= l.maxCapacities && |r.evidences| <= l.maxEvidences
    && r.qos.serviceClass <= 3 && r.qos.priority <= 3
    && ListsNamed(r.policy, l) && TermsNamed(r.policy, l) && MovesNamed(r.policy)
    && (r.incumbent.Some? ==> RefWhole(r.incumbent.value.reservation))
    && ListFits(|r.occupied|, l.maxOccupied)
    && Speakable(r.provenance.producer) && Speakable(r.provenance.version) && r.provenance.observed >= 0
  }

  /** The lines about candidates and capacities. */
  function FirstLines(r: Request): seq<seq<string>> {
    [["version", Decimal(FORMAT_VERSION)]] + [LineOf(FlowLine, NameItems(r.flow))] + [LineOf(CandidatesetLine, NameItems(r.candidates))]
    + PathLines(r.paths) + [LineOf(CapacityLine, NameItems(r.capacity))] + EntryLines(r.capacities)
  }

  function MiddleLines(r: Request): seq<seq<string>> {
    [LineOf(QosLine, QosItems(r.qos))] + [LineOf(EvidenceLine, NameItems(r.evidence))] + UtilLines(r.evidences)
    + [LineOf(PolicyLine, PolicyItems(r.policy))]
  }

  function LateLines(r: Request): seq<seq<string>> {
    IncumbentLines(r.incumbent) + OccupiedLines(r.occupied) + [LineOf(ExpectedLine, ExpectedItems(r.expected))]
  }

  function LastLines(r: Request): seq<seq<string>> {
    [LineOf(ProvenanceLine, ProvenanceItems(r.provenance))] + [LineOf(AttemptLine, [Num("id", r.attempt)])]
  }

  lemma LinesParts(r: Request)
    ensures LinesOf(r) == FirstLines(r) + MiddleLines(r) + LateLines(r) + LastLines(r)
  {
    hide LineOf, PathLines, EntryLines, UtilLines, IncumbentLines, OccupiedLines, NameItems, QosItems, PolicyItems, ExpectedItems,
         ProvenanceItems, Decimal;
  }

  lemma FirstLead(r: Request, l: Limits) returns (d: Draft)
    requires Writable(r, l)
    ensures Leads(START, FirstLines(r), d, l) && d.seen == {FlowLine, CandidatesetLine, CapacityLine}
    ensures d.request == NOTHING_ASKED.(flow := r.flow, candidates := r.candidates, paths := r.paths, capacity := r.capacity, capacities := r.capacities)
  {
    hide Leads, LineOf, PathLines, EntryLines, NameItems, PathNamed, ListsNamed, TermsNamed, MovesNamed, Speakable, Decimal;
    VersionLeads(START, l);
    var lines := [["version", Decimal(FORMAT_VERSION)]];
    NamedLeads(START, FlowLine, r.flow, l);
    d := Put(START, FlowLine, Renamed(START.request, FlowLine, r.flow));
    LeadsOn(START, lines, START, [LineOf(FlowLine, NameItems(r.flow))], d, l);
    lines := lines + [LineOf(FlowLine, NameItems(r.flow))];
    NamedLeads(d, CandidatesetLine, r.candidates, l);
    var d2 := Put(d, CandidatesetLine, Renamed(d.request, CandidatesetLine, r.candidates));
    LeadsOn(START, lines, d, [LineOf(CandidatesetLine, NameItems(r.candidates))], d2, l);
    lines := lines + [LineOf(CandidatesetLine, NameItems(r.candidates))];
    PathsLead(d2, r.paths, l);
    var d3 := d2.(request := d2.request.(paths := d2.request.paths + r.paths));
    LeadsOn(START, lines, d2, PathLines(r.paths), d3, l);
    lines := lines + PathLines(r.paths);
    NamedLeads(d3, CapacityLine, r.capacity, l);
    var d4 := Put(d3, CapacityLine, Renamed(d3.request, CapacityLine, r.capacity));
    LeadsOn(START, lines, d3, [LineOf(CapacityLine, NameItems(r.capacity))], d4, l);
    lines := lines + [LineOf(CapacityLine, NameItems(r.capacity))];
    EntriesLead(d4, r.capacities, l);
    d := d4.(request := d4.request.(capacities := d4.request.capacities + r.capacities));
    LeadsOn(START, lines, d4, EntryLines(r.capacities), d, l);
  }

  lemma MiddleLead(d0: Draft, r: Request, l: Limits) returns (d: Draft)
    requires Writable(r, l) && d0.request.evidences == [] && QosLine !in d0.seen && EvidenceLine !in d0.seen && PolicyLine !in d0.seen
    ensures Leads(d0, MiddleLines(r), d, l) && d.seen == d0.seen + {QosLine, EvidenceLine, PolicyLine}
    ensures d.request == d0.request.(qos := r.qos, evidence := r.evidence, evidences := r.evidences, policy := r.policy)
  {
    hide Leads, LineOf, UtilLines, NameItems, QosItems, PolicyItems, PathNamed, ListsNamed, TermsNamed, MovesNamed, Speakable;
    QosLeads(d0, r.qos, l);
    var lines := [LineOf(QosLine, QosItems(r.qos))];
    var d1 := Put(d0, QosLine, d0.request.(qos := r.qos));
    NamedLeads(d1, EvidenceLine, r.evidence, l);
    var d2 := Put(d1, EvidenceLine, Renamed(d1.request, EvidenceLine, r.evidence));
    LeadsOn(d0, lines, d1, [LineOf(EvidenceLine, NameItems(r.evidence))], d2, l);
    lines := lines + [LineOf(EvidenceLine, NameItems(r.evidence))];
    UtilsLead(d2, r.evidences, l);
    var d3 := d2.(request := d2.request.(evidences := d2.request.evidences + r.evidences));
    LeadsOn(d0, lines, d2, UtilLines(r.evidences), d3, l);
    lines := lines + UtilLines(r.evidences);
    PolicyLeads(d3, r.policy, l);
    d := Put(d3, PolicyLine, d3.request.(policy := r.policy));
    LeadsOn(d0, lines, d3, [LineOf(PolicyLine, PolicyItems(r.policy))], d, l);
  }

  lemma LateLead(d0: Draft, r: Request, l: Limits) returns (d: Draft)
    requires Writable(r, l) && d0.request.incumbent.None? && d0.request.occupied == []
    requires d0.seen !! {IncumbentLine, OccupiedLine, ExpectedLine}
    ensures Leads(d0, LateLines(r), d, l) && d0.seen + {ExpectedLine} <= d.seen <= d0.seen + {IncumbentLine, OccupiedLine, ExpectedLine}
    ensures d.request == d0.request.(incumbent := r.incumbent, occupied := r.occupied, expected := r.expected)
  {
    hide Leads, LineOf, IncumbentLines, OccupiedLines, ExpectedItems, PathNamed, ListsNamed, TermsNamed, MovesNamed, Speakable, RefWhole;
    var d1 := IncumbentLeads(d0, r.incumbent, l);
    var d2 := OccupiedLeads(d1, r.occupied, l);
    LeadsOn(d0, IncumbentLines(r.incumbent), d1, OccupiedLines(r.occupied), d2, l);
    ExpectedLeads(d2, r.expected, l);
    d := Put(d2, ExpectedLine, d2.request.(expected := r.expected));
    LeadsOn(d0, IncumbentLines(r.incumbent) + OccupiedLines(r.occupied), d2, [LineOf(ExpectedLine, ExpectedItems(r.expected))], d, l);
  }

  lemma LastLead(d0: Draft, r: Request, l: Limits) returns (d: Draft)
    requires Writable(r, l) && d0.seen !! {ProvenanceLine, AttemptLine}
    ensures Leads(d0, LastLines(r), d, l) && d0.seen <= d.seen
    ensures d.request == d0.request.(provenance := r.provenance, attempt := r.attempt)
  {
    hide Leads, LineOf, ProvenanceItems, PathNamed, ListsNamed, TermsNamed, MovesNamed, Speakable, RefWhole;
    ProvenanceLeads(d0, r.provenance, l);
    var d1 := Put(d0, ProvenanceLine, d0.request.(provenance := r.provenance));
    AttemptLeads(d1, r.attempt, l);
    d := Put(d1, AttemptLine, d1.request.(attempt := r.attempt));
    LeadsOn(d0, [LineOf(ProvenanceLine, ProvenanceItems(r.provenance))], d1, [LineOf(AttemptLine, [Num("id", r.attempt)])], d, l);
  }

  /** Everything up to the provenance of a request leads to all of it but that and the attempt. */
  lemma MostLeads(r: Request, l: Limits) returns (d: Draft)
    requires Writable(r, l)
    ensures Leads(START, FirstLines(r) + MiddleLines(r) + LateLines(r), d, l)
    ensures REQUIRED_LINES <= d.seen && d.seen !! {ProvenanceLine, AttemptLine}
    ensures d.request.(provenance := r.provenance, attempt := r.attempt) == r
  {
    hide Leads, FirstLines, MiddleLines, LateLines, Writable;
    var d1 := FirstLead(r, l);
    var d2 := MiddleLead(d1, r, l);
    d := LateLead(d2, r, l);
    LeadsOn(START, FirstLines(r), d1, MiddleLines(r), d2, l);
    LeadsOn(START, FirstLines(r) + MiddleLines(r), d2, LateLines(r), d, l);
  }

  /** The lines of a request lead to that request. */
  lemma RequestLeads(r: Request, l: Limits) returns (d: Draft)
    requires Writable(r, l)
    ensures Leads(START, LinesOf(r), d, l) && Completed(d) == Ok(r)
  {
    hide Leads, FirstLines, MiddleLines, LateLines, LastLines, LinesOf, Writable;
    var d1 := MostLeads(r, l);
    d := LastLead(d1, r, l);
    LeadsOn(START, FirstLines(r) + MiddleLines(r) + LateLines(r), d1, LastLines(r), d, l);
    LinesParts(r);
    assert d.request == r;
  }

  // ---- the text -----------------------------------------------------------------------------------------------------------------

  function Texts(lines: seq<seq<string>>): seq<string> {
    if lines == [] then [""] else [Spaced(lines[0])] + Texts(lines[1..])
  }

  /** The text is cut into the lines it was made of, and an empty one. */
  lemma {:induction false} RenderSplit(lines: seq<seq<string>>)
    requires forall line <- lines :: WordsClean(line)
    ensures Split(Render(lines), '\n') == Texts(lines)
    decreases |lines|
  {
    hide Clean, Spaced;
    if lines != [] {
      var text, rest := Spaced(lines[0]), Render(lines[1..]);
      assert WordsClean(lines[0]) by { assert lines[0] in lines; }
      assert forall line <- lines[1..] :: line in lines;
      SpacedFree(lines[0]);
      var s := Render(lines);
      assert s == text + "\n" + rest;
      IndexAt(s, '\n', |text|);
      assert s[..|text|] == text && s[|text| + 1..] == rest;
      RenderSplit(lines[1..]);
    }
  }

  /** No line is longer than the reader takes. */
  predicate LinesShort(lines: seq<seq<string>>) {
    forall line <- lines :: |Spaced(line)| <= MAX_LINE
  }

  lemma LineRead(d: Draft, words: seq<string>, l: Limits)
    requires WordsClean(words)
    ensures ReadLine(d, Spaced(words), l) == if |Spaced(words)| > MAX_LINE then Err(OVERSIZE_REQUEST) else ReadWords(d, words, l)
  {
    hide Clean, Spaced, Words, ReadWords;
    var s := Spaced(words);
    SpacedFree(words);
    IndexAt(s, '#', |s|);
    assert s[..|s|] == s;
    WordsSpaced(words);
  }

  /** Lines that lead somewhere are read, or refused for the length of one of them. */
  lemma {:induction false} TextsRead(d: Draft, lines: seq<seq<string>>, d': Draft, l: Limits)
    requires Leads(d, lines, d', l)
    ensures ReadLines(d, Texts(lines), l) == if LinesShort(lines) then Ok(d') else Err(OVERSIZE_REQUEST)
    decreases |lines|
  {
    hide WordsClean, ReadWords, ReadLine, Spaced;
    if lines == [] {
      EmptyLine(d, l);
      assert [""][1..] == [];
    } else {
      assert lines[0] in lines && forall line <- lines[1..] :: line in lines;
      LineRead(d, lines[0], l);
      var d1 := ReadWords(d, lines[0], l).value;
      TextsRead(d1, lines[1..], d', l);
      assert Texts(lines)[1..] == Texts(lines[1..]);
      assert LinesShort(lines) <==> |Spaced(lines[0])| <= MAX_LINE && LinesShort(lines[1..]);
    }
  }

  lemma EmptyLine(d: Draft, l: Limits)
    ensures ReadLine(d, "", l) == Ok(d)
  {
  }

  /**
   A request the text can express is read back from what is written, whole and unchanged, exactly when every
   line and the document are within the bounds on their length; otherwise the text is refused for its size.
   */
  lemma RoundTrip(r: Request, l: Limits)
    requires Writable(r, l)
    ensures Parse(Write(r), l) ==
            if LinesShort(LinesOf(r)) && |Write(r)| <= MAX_DOCUMENT then Ok(r) else Err(OVERSIZE_REQUEST)
  {
    hide LinesOf, Render, Writable, Completed, ReadLines, Split, LinesShort, Fold;
    var d := RequestLeads(r, l);
    RenderSplit(LinesOf(r));
    TextsRead(START, LinesOf(r), d, l);
  }
}
