/** What is written on each kind of line is what is read from it. */
module ScenarioLines {
  import opened Bytes
  import opened Records
  import opened Model
  import opened ScenarioText
  import opened Scenario
  import opened ScenarioWriter
  import opened ScenarioArgs
  import opened Validation

  // ---- words that may stand in a list --------------------------------------------------------------------

  /** A clean word without the separators of lists and pairs. */
  predicate Plain(w: string) { Clean(w) && ',' !in w && ':' !in w }

  lemma DecimalPlain(n: nat)
    ensures Plain(Decimal(n))
  {
    DecimalClean(n);
  }

  lemma PlainWords1()
    ensures Plain("premium") && Plain("standard") && Plain("economy") && Plain("node") && Plain("rack")
  {
  }

  lemma PlainWords2()
    ensures Plain("zone") && Plain("region") && Plain("global") && Plain("best_effort") && Plain("controlled")
  {
  }

  lemma PlainWords3()
    ensures Plain("assured") && Plain("reserved") && Plain("low") && Plain("normal") && Plain("high")
  {
  }

  lemma PlainWords4()
    ensures Plain("critical") && Plain("rank_worst") && Plain("hard_exclude") && Plain("place") && Plain("defer")
  {
  }

  lemma PlainWords5()
    ensures Plain("allow_move") && Plain("min") && Plain("max") && Plain("cost") && Plain("locality_affinity")
  {
  }

  lemma PlainWords6()
    ensures Plain("residual_capacity") && Plain("hop_count") && Plain("congestion") && Plain("tier") && Plain("latency")
  {
  }

  lemma PlainWords7()
    ensures Plain("reservation_affinity") && Plain("incumbent_stability")
  {
  }

  lemma TablesPlain()
    ensures forall w <- TIERS :: Plain(w)
    ensures forall w <- SCOPES :: Plain(w)
    ensures forall w <- CLASSES :: Plain(w)
    ensures forall w <- PRIORITIES :: Plain(w)
    ensures forall w <- MODES :: Plain(w)
    ensures forall w <- GATES :: Plain(w)
    ensures forall w <- CHURNS :: Plain(w)
    ensures forall w <- DIRECTIONS :: Plain(w)
    ensures forall w <- OBJECTIVES :: Plain(w)
  {
    hide Plain;
    PlainWords1();
    PlainWords2();
    PlainWords3();
    PlainWords4();
    PlainWords5();
    PlainWords6();
    PlainWords7();
  }

  lemma TablesDistinct()
    ensures Distinct(TIERS) && Distinct(SCOPES) && Distinct(CLASSES) && Distinct(PRIORITIES)
    ensures Distinct(MODES) && Distinct(GATES) && Distinct(CHURNS) && Distinct(DIRECTIONS)
  {
  }

  lemma NameBack(table: seq<string>, e: u8)
    requires Distinct(table) && e < |table| <= 256
    ensures ToNamed(table, NameIn(table, e)) == Ok(e)
  {
  }

  // ---- values ------------------------------------------------------------------------------------------------

  lemma FlagBack(b: bool)
    ensures Clean(FlagText(b))
    ensures FlagText(b) == "true" <==> b
  {
    if !b { assert |FlagText(b)| == 5; }
  }

  /** A pair of plain words around a colon is cut there. */
  lemma PairCut(x: string, y: string)
    requires Plain(x) && Plain(y)
    ensures var w := x + [':'] + y;
            && IndexOf(w, ':') == |x| < |w| && w[..|x|] == x && w[|x| + 1..] == y
            && Clean(w) && ',' !in w
  {
    var w := x + [':'] + y;
    IndexAt(w, ':', |x|);
    forall i | 0 <= i < |w| ensures !Blank(w[i]) && w[i] != '#' {
      if i < |x| { assert w[i] == x[i]; } else if i > |x| { assert w[i] == y[i - |x| - 1]; }
    }
  }

  lemma RefBack(r: Ref)
    ensures ToRef(RefText(r)) == Ok(r) && Clean(RefText(r)) && ',' !in RefText(r)
  {
    hide Plain, Clean, ParseU64, Decimal, IndexOf;
    DecimalPlain(r.id);
    DecimalPlain(r.generation);
    PairCut(Decimal(r.id), Decimal(r.generation));
    NumberBack(r.id);
    NumberBack(r.generation);
  }

  predicate ObjectiveNamed(o: Objective) { o.kind <= 8 && o.direction <= 1 }

  lemma NamePlain(table: seq<string>, e: u8)
    requires e < |table| && forall w <- table :: Plain(w)
    ensures Plain(NameIn(table, e))
  {
  }

  lemma ObjectiveBack(o: Objective)
    requires ObjectiveNamed(o)
    ensures ToObjective(ObjectiveText(o)) == Ok(o) && Clean(ObjectiveText(o)) && ',' !in ObjectiveText(o)
  {
    hide Plain, Clean, IndexOf, NameIn, ToNamed, Distinct;
    TablesPlain();
    TablesDistinct();
    NamePlain(OBJECTIVES, o.kind);
    NamePlain(DIRECTIONS, o.direction);
    PairCut(NameIn(OBJECTIVES, o.kind), NameIn(DIRECTIONS, o.direction));
    NameBack(OBJECTIVES, o.kind);
    NameBack(DIRECTIONS, o.direction);
  }

  lemma TierBack(t: u8)
    requires t <= 2
    ensures ToTier(TierText(t)) == Ok(t) && Clean(TierText(t)) && ',' !in TierText(t)
  {
    hide NameIn, ToNamed, Distinct;
    TablesPlain();
    TablesDistinct();
    NamePlain(TIERS, t);
    NameBack(TIERS, t);
  }

  lemma NumberTextBack(n: u64)
    ensures ToNumber(NumberText(n)) == Ok(n) && Clean(NumberText(n)) && ',' !in NumberText(n)
  {
    NumberBack(n);
    DecimalClean(n);
  }

  // ---- lists ---------------------------------------------------------------------------------------------------

  /** Each element is written as a clean part that reads back. */
  ghost predicate Readable<T>(xs: seq<T>, write: T -> string, read: string -> Result<T>) {
    forall i :: 0 <= i < |xs| ==> Clean(write(xs[i])) && ',' !in write(xs[i]) && read(write(xs[i])) == Ok(xs[i])
  }

  /** The reader's bound, which lets a single element pass whatever it is. */
  predicate ListFits(n: nat, limit: nat) { n <= limit || n <= 1 }

  lemma {:induction false} ReadEach<T>(xs: seq<T>, write: T -> string, read: string -> Result<T>)
    requires Readable(xs, write, read)
    ensures ReadAll(Each(xs, write), read) == Ok(xs)
    decreases |xs|
  {
    if xs != [] {
      assert forall i :: 0 <= i < |xs[1..]| ==> xs[1..][i] == xs[i + 1];
      ReadEach(xs[1..], write, read);
      assert Each(xs, write)[1..] == Each(xs[1..], write);
      assert xs == [xs[0]] + xs[1..];
    }
  }

  lemma {:induction false} JoinClean(parts: seq<string>)
    requires parts != [] && forall p <- parts :: Clean(p)
    ensures Clean(Join(parts, ','))
    decreases |parts|
  {
    assert parts[0] in parts;
    if |parts| > 1 {
      assert forall p <- parts[1..] :: p in parts;
      JoinClean(parts[1..]);
      var rest := Join(parts[1..], ',');
      var w := parts[0] + [','] + rest;
      forall i | 0 <= i < |w| ensures !Blank(w[i]) && w[i] != '#' {
        if i < |parts[0]| { assert w[i] == parts[0][i]; } else if i > |parts[0]| { assert w[i] == rest[i - |parts[0]| - 1]; }
      }
    }
  }

  /** A list that is not empty and within the bound is read back. */
  lemma ListBack<T>(xs: seq<T>, limit: nat, write: T -> string, read: string -> Result<T>)
    requires xs != [] && Readable(xs, write, read) && ListFits(|xs|, limit)
    ensures ToList(ListText(xs, write), limit, read) == Ok(xs) && Clean(ListText(xs, write))
  {
    hide Clean, Join, Split, ReadAll;
    var parts := Each(xs, write);
    forall p | p in parts ensures Clean(p) && ',' !in p {
      var i :| 0 <= i < |parts| && parts[i] == p;
    }
    SplitJoin(parts, ',');
    JoinClean(parts);
    ReadEach(xs, write, read);
  }

  // ---- arguments of one line --------------------------------------------------------------------------------------

  /** What is written is words. */
  predicate Neat(items: seq<Item>) {
    forall i :: 0 <= i < |items| && items[i].value.Some? ==> Clean(items[i].value.value)
  }

  /** Items for one line. */
  predicate Orderly(items: seq<Item>) {
    Apart(items) && |items| <= MAX_KEYS && Neat(items) && forall i :: 0 <= i < |items| ==> Clean(items[i].key)
  }

  lemma ItemsOrderly(items: seq<Item>, ks: seq<string>)
    requires Keyed(items, ks) && Distinct(ks) && |ks| <= MAX_KEYS && Neat(items) && forall k <- ks :: Clean(k)
    ensures Orderly(items)
  {
    hide Clean;
    KeyedApart(items, ks);
  }

  lemma Found(a: Args, items: seq<Item>, i: nat)
    requires Says(a, items) && i < |items|
    ensures Look(a, items[i].key) == items[i].value
  {
  }

  lemma FinishOk(a: Args, items: seq<Item>, ks: seq<string>)
    requires Holds(a, items) && Keyed(items, ks)
    ensures Finish(a, ks) == Ok(())
  {
  }

  /** A number under a key. */
  lemma NumFound(a: Args, items: seq<Item>, i: nat, k: string, n: u64)
    requires Says(a, items) && i < |items| && items[i] == Num(k, n)
    ensures Number(a, k) == Ok(n) && NumberOr0(a, k) == Ok(n)
    ensures n < 0x1_0000_0000 ==> Number32(a, k) == Ok(n) && Number32Or0(a, k) == Ok(n)
  {
    hide Decimal, ParseU64;
    Found(a, items, i);
    NumberBack(n);
  }

  lemma NameFound(a: Args, items: seq<Item>, i: nat, k: string, table: seq<string>, e: u8, default: u8)
    requires Says(a, items) && i < |items| && items[i] == Here(k, NameIn(table, e)) && e < |table| <= 256 && Distinct(table)
    ensures Named(a, k, table) == Ok(e) && NamedOr(a, k, table, default) == Ok(e)
  {
    hide NameIn, PlaceIn, Distinct;
    Found(a, items, i);
    NameBack(table, e);
  }

  lemma FlagFound(a: Args, items: seq<Item>, i: nat, k: string, b: bool)
    requires Says(a, items) && i < |items| && items[i] == Here(k, FlagText(b))
    ensures Flag(a, k) == Ok(b)
  {
    Found(a, items, i);
    FlagBack(b);
  }

  lemma ListFound<T>(a: Args, items: seq<Item>, i: nat, k: string, xs: seq<T>, limit: nat, write: T -> string, read: string -> Result<T>)
    requires Says(a, items) && i < |items| && items[i] == ListItem(k, xs, write)
    requires Readable(xs, write, read) && ListFits(|xs|, limit)
    ensures ListOr(a, k, limit, read) == Ok(xs)
  {
    hide Readable;
    Found(a, items, i);
    if xs != [] { ListBack(xs, limit, write, read); }
  }

  lemma OptionalFound(a: Args, items: seq<Item>, i: nat, k: string, n: Option<u64>)
    requires Says(a, items) && i < |items| && items[i] == OptionalItem(k, n) && n != Some(0)
    ensures NumberOr0(a, k).Ok? && OptionalOf(NumberOr0(a, k).value) == n
  {
    hide Decimal, ParseU64;
    Found(a, items, i);
    if n.Some? { NumberBack(n.value); }
  }

  lemma SaysParts(a: Args, x: seq<Item>, y: seq<Item>)
    requires Says(a, x + y)
    ensures Says(a, x) && Says(a, y)
  {
    hide Look;
    forall i | 0 <= i < |x| ensures Look(a, x[i].key) == x[i].value { assert (x + y)[i] == x[i]; }
    forall i | 0 <= i < |y| ensures Look(a, y[i].key) == y[i].value { assert (x + y)[|x| + i] == y[i]; }
  }

  lemma NumbersReadable(xs: seq<u64>)
    ensures Readable(xs, NumberText, ToNumber)
  {
    hide Clean, Decimal, ParseU64, NumberText, ToNumber;
    forall i | 0 <= i < |xs| ensures Clean(NumberText(xs[i])) && ',' !in NumberText(xs[i]) && ToNumber(NumberText(xs[i])) == Ok(xs[i]) {
      NumberTextBack(xs[i]);
    }
  }

  lemma RefsReadable(xs: seq<Ref>)
    ensures Readable(xs, RefText, ToRef)
  {
    hide Clean, RefText, ToRef;
    forall i | 0 <= i < |xs| ensures Clean(RefText(xs[i])) && ',' !in RefText(xs[i]) && ToRef(RefText(xs[i])) == Ok(xs[i]) {
      RefBack(xs[i]);
    }
  }

  lemma TiersReadable(xs: seq<u8>)
    requires forall t <- xs :: t <= 2
    ensures Readable(xs, TierText, ToTier)
  {
    hide Clean, TierText, ToTier;
    forall i | 0 <= i < |xs| ensures Clean(TierText(xs[i])) && ',' !in TierText(xs[i]) && ToTier(TierText(xs[i])) == Ok(xs[i]) {
      assert xs[i] in xs;
      TierBack(xs[i]);
    }
  }

  lemma ObjectivesReadable(xs: seq<Objective>)
    requires forall o <- xs :: ObjectiveNamed(o)
    ensures Readable(xs, ObjectiveText, ToObjective)
  {
    hide Clean, ObjectiveText, ToObjective, ObjectiveNamed;
    forall i | 0 <= i < |xs|
      ensures Clean(ObjectiveText(xs[i])) && ',' !in ObjectiveText(xs[i]) && ToObjective(ObjectiveText(xs[i])) == Ok(xs[i])
    {
      assert xs[i] in xs;
      ObjectiveBack(xs[i]);
    }
  }

  /** What a value may be: a number, a name from a table, a flag, a list, or another clean word. */
  lemma NumClean(n: u64)
    ensures Clean(Decimal(n))
  {
    DecimalClean(n);
  }

  lemma NameClean(table: seq<string>, e: u8)
    requires e < |table| && forall w <- table :: Plain(w)
    ensures Clean(NameIn(table, e))
  {
    NamePlain(table, e);
  }

  lemma ListClean<T>(xs: seq<T>, write: T -> string, read: string -> Result<T>)
    requires xs != [] && Readable(xs, write, read)
    ensures Clean(ListText(xs, write))
  {
    hide Readable;
    ListBack(xs, |xs|, write, read);
  }

  // ---- paths --------------------------------------------------------------------------------------------------------

  predicate PathNamed(p: Path, l: Limits) {
    p.tier <= 2 && p.scope <= 4 && ListFits(|p.labels|, l.maxLabels) && ListFits(|p.reservations|, l.maxReservations)
  }

  lemma PathNumbers(a: Args, p: Path)
    requires Says(a, PathItems(p))
    ensures Number(a, "id") == Ok(p.id) && Number(a, "auth") == Ok(p.authority) && NumberOr0(a, "locality") == Ok(p.locality)
    ensures NumberOr0(a, "domain") == Ok(p.domain) && NumberOr0(a, "cost") == Ok(p.cost) && NumberOr0(a, "latency") == Ok(p.latency)
    ensures Number32Or0(a, "hops") == Ok(p.hops)
  {
    hide Says, Number, NumberOr0, Number32Or0, NameIn, Decimal, ListItem;
    var items := PathItems(p);
    NumFound(a, items, 0, "id", p.id);
    NumFound(a, items, 1, "auth", p.authority);
    NumFound(a, items, 3, "locality", p.locality);
    NumFound(a, items, 5, "domain", p.domain);
    NumFound(a, items, 6, "cost", p.cost);
    NumFound(a, items, 7, "latency", p.latency);
    NumFound(a, items, 8, "hops", p.hops);
  }

  lemma PathWords(a: Args, p: Path, l: Limits)
    requires PathNamed(p, l) && Says(a, PathItems(p))
    ensures NamedOr(a, "tier", TIERS, 1) == Ok(p.tier) && NamedOr(a, "scope", SCOPES, 0) == Ok(p.scope)
    ensures ListOr(a, "labels", l.maxLabels, ToNumber) == Ok(p.labels)
    ensures ListOr(a, "reservations", l.maxReservations, ToRef) == Ok(p.reservations)
  {
    hide Says, NumberText, RefText, ToNumber, ToRef, NamedOr, ListOr, NameIn, Decimal, ListItem, Readable, Distinct;
    var items := PathItems(p);
    TablesDistinct();
    NameFound(a, items, 2, "tier", TIERS, p.tier, 1);
    NameFound(a, items, 4, "scope", SCOPES, p.scope, 0);
    NumbersReadable(p.labels);
    ListFound(a, items, 9, "labels", p.labels, l.maxLabels, NumberText, ToNumber);
    RefsReadable(p.reservations);
    ListFound(a, items, 10, "reservations", p.reservations, l.maxReservations, RefText, ToRef);
  }

  lemma PathBack(a: Args, p: Path, l: Limits)
    requires PathNamed(p, l) && Holds(a, PathItems(p))
    ensures PathFrom(a, l) == Ok(p)
  {
    hide Says, Keyed, ToNumber, ToRef, Number, NumberOr0, Number32Or0, NamedOr, ListOr, Finish, PathItems;
    PathNumbers(a, p);
    PathWords(a, p, l);
    PathKeyed(p);
    FinishOk(a, PathItems(p), PATH_KEYS);
  }

  lemma PathKeyed(p: Path)
    ensures Keyed(PathItems(p), PATH_KEYS)
  {
    hide NameIn, Decimal, ListText;
  }

  lemma PathOrderly(p: Path)
    requires p.tier <= 2 && p.scope <= 4
    ensures Orderly(PathItems(p))
  {
    hide Decimal, Clean, Neat, Keyed, Distinct;
    PathNeat(p);
    PathKeyed(p);
    KeysClean();
    KeysDistinct();
    ItemsOrderly(PathItems(p), PATH_KEYS);
  }

  lemma PathNeat(p: Path)
    requires p.tier <= 2 && p.scope <= 4
    ensures Neat(PathItems(p))
  {
    hide NameIn, Decimal, Readable, Clean, Plain, ListText, NumberText, RefText;
    TablesPlain();
    NameClean(TIERS, p.tier);
    NameClean(SCOPES, p.scope);
    forall n: u64 ensures Clean(Decimal(n)) { NumClean(n); }
    NumbersReadable(p.labels);
    RefsReadable(p.reservations);
    if p.labels != [] { ListClean(p.labels, NumberText, ToNumber); }
    if p.reservations != [] { ListClean(p.reservations, RefText, ToRef); }
  }

  // ---- the other lines ------------------------------------------------------------------------------------------------

  lemma NameBackFrom(a: Args, n: Name)
    requires Says(a, NameItems(n))
    ensures NameFrom(a) == Ok(n)
  {
    hide Says, Number, Decimal;
    NumFound(a, NameItems(n), 0, "id", n.id);
    NumFound(a, NameItems(n), 1, "gen", n.generation);
  }

  lemma NameKeyed(n: Name)
    ensures Keyed(NameItems(n), NAME_KEYS)
  {
    hide Decimal, ListText, NameIn, FlagText;
  }

  lemma NameOrderly(n: Name)
    ensures Orderly(NameItems(n))
  {
    hide Decimal, Clean, Neat, Keyed, Distinct;
    NameNeat(n);
    NameKeyed(n);
    KeysClean();
    KeysDistinct();
    ItemsOrderly(NameItems(n), NAME_KEYS);
  }

  lemma NameNeat(n: Name)
    ensures Neat(NameItems(n))
  {
    hide Decimal, Clean;
    forall n: u64 ensures Clean(Decimal(n)) { NumClean(n); }
  }

  lemma EntryBack(a: Args, c: Capacity)
    requires Holds(a, EntryItems(c))
    ensures EntryFrom(a) == Ok(c)
  {
    hide Says, Number, Decimal, Finish;
    var items := EntryItems(c);
    NumFound(a, items, 0, "path", c.path);
    NumFound(a, items, 1, "total", c.total);
    NumFound(a, items, 2, "residual", c.residual);
    EntryKeyed(c);
    FinishOk(a, items, ENTRY_KEYS);
  }

  lemma EntryKeyed(c: Capacity)
    ensures Keyed(EntryItems(c), ENTRY_KEYS)
  {
    hide Decimal, ListText, NameIn, FlagText;
  }

  lemma EntryOrderly(c: Capacity)
    ensures Orderly(EntryItems(c))
  {
    hide Decimal, Clean, Neat, Keyed, Distinct;
    EntryNeat(c);
    EntryKeyed(c);
    KeysClean();
    KeysDistinct();
    ItemsOrderly(EntryItems(c), ENTRY_KEYS);
  }

  lemma EntryNeat(c: Capacity)
    ensures Neat(EntryItems(c))
  {
    hide Decimal, Clean;
    forall n: u64 ensures Clean(Decimal(n)) { NumClean(n); }
  }

  lemma UtilBack(a: Args, e: Evidence)
    requires Holds(a, UtilItems(e))
    ensures UtilFrom(a) == Ok(e)
  {
    hide Says, Number, Number32, Decimal, Finish;
    var items := UtilItems(e);
    NumFound(a, items, 0, "path", e.path);
    NumFound(a, items, 1, "ppb", e.utilization);
    UtilKeyed(e);
    FinishOk(a, items, UTIL_KEYS);
  }

  lemma UtilKeyed(e: Evidence)
    ensures Keyed(UtilItems(e), UTIL_KEYS)
  {
    hide Decimal, ListText, NameIn, FlagText;
  }

  lemma UtilOrderly(e: Evidence)
    ensures Orderly(UtilItems(e))
  {
    hide Decimal, Clean, Neat, Keyed, Distinct;
    UtilNeat(e);
    UtilKeyed(e);
    KeysClean();
    KeysDistinct();
    ItemsOrderly(UtilItems(e), UTIL_KEYS);
  }

  lemma UtilNeat(e: Evidence)
    ensures Neat(UtilItems(e))
  {
    hide Decimal, Clean;
    forall n: u64 ensures Clean(Decimal(n)) { NumClean(n); }
  }

  lemma QosBack(a: Args, q: Qos)
    requires q.serviceClass <= 3 && q.priority <= 3 && Holds(a, QosItems(q))
    ensures QosFrom(a) == Ok(q)
  {
    hide Says, Number, NumberOr0, Named, NamedOr, Decimal, Finish, NameIn, Distinct;
    var items := QosItems(q);
    NumFound(a, items, 0, "id", q.id);
    NumFound(a, items, 1, "gen", q.generation);
    TablesDistinct();
    NameFound(a, items, 2, "class", CLASSES, q.serviceClass, 0);
    NameFound(a, items, 3, "priority", PRIORITIES, q.priority, 1);
    NumFound(a, items, 4, "required", q.required);
    NumFound(a, items, 5, "maxlatency", q.maxLatency);
    QosKeyed(q);
    FinishOk(a, items, QOS_KEYS);
  }

  lemma QosKeyed(q: Qos)
    ensures Keyed(QosItems(q), QOS_KEYS)
  {
    hide Decimal, ListText, NameIn, FlagText;
  }

  lemma QosOrderly(q: Qos)
    requires q.serviceClass <= 3 && q.priority <= 3
    ensures Orderly(QosItems(q))
  {
    hide Decimal, Clean, Neat, Keyed, Distinct;
    QosNeat(q);
    QosKeyed(q);
    KeysClean();
    KeysDistinct();
    ItemsOrderly(QosItems(q), QOS_KEYS);
  }

  lemma QosNeat(q: Qos)
    requires q.serviceClass <= 3 && q.priority <= 3
    ensures Neat(QosItems(q))
  {
    hide NameIn, Decimal, Clean, Plain;
    TablesPlain();
    NameClean(CLASSES, q.serviceClass);
    NameClean(PRIORITIES, q.priority);
    forall n: u64 ensures Clean(Decimal(n)) { NumClean(n); }
  }

  lemma ExpectedBack(a: Args, e: Expected)
    requires Holds(a, ExpectedItems(e))
    ensures ExpectedFrom(a) == Ok(e)
  {
    hide Says, Number, NumberOr0, Decimal, Finish;
    var items := ExpectedItems(e);
    NumFound(a, items, 0, "pathauth", e.path);
    NumFound(a, items, 1, "cset", e.candidates);
    NumFound(a, items, 2, "cap", e.capacity);
    NumFound(a, items, 3, "policy", e.policy);
    NumFound(a, items, 4, "qos", e.qos);
    NumFound(a, items, 5, "epoch", e.epoch);
    NumFound(a, items, 6, "evidence", e.evidence);
    ExpectedKeyed(e);
    FinishOk(a, items, EXPECTED_KEYS);
  }

  lemma ExpectedKeyed(e: Expected)
    ensures Keyed(ExpectedItems(e), EXPECTED_KEYS)
  {
    hide Decimal, ListText, NameIn, FlagText;
  }

  lemma ExpectedOrderly(e: Expected)
    ensures Orderly(ExpectedItems(e))
  {
    hide Decimal, Clean, Neat, Keyed, Distinct;
    ExpectedNeat(e);
    ExpectedKeyed(e);
    KeysClean();
    KeysDistinct();
    ItemsOrderly(ExpectedItems(e), EXPECTED_KEYS);
  }

  lemma ExpectedNeat(e: Expected)
    ensures Neat(ExpectedItems(e))
  {
    hide Decimal, Clean;
    forall n: u64 ensures Clean(Decimal(n)) { NumClean(n); }
  }

  /** A reservation that is written whole, or none. */
  predicate RefWhole(r: Ref) { RefValid(r) || r == NO_REF }

  lemma IncumbentBack(a: Args, i: Incumbent)
    requires RefWhole(i.reservation) && Holds(a, IncumbentItems(i))
    ensures IncumbentFrom(a) == Ok(i)
  {
    hide Says, Number, ListOr, Decimal, Finish, RefText, ToRef, Readable;
    var items := IncumbentItems(i);
    NumFound(a, items, 0, "id", i.id);
    NumFound(a, items, 1, "gen", i.generation);
    NumFound(a, items, 2, "path", i.path);
    NumFound(a, items, 3, "pathauth", i.pathAuthority);
    NumFound(a, items, 4, "cset", i.candidates);
    NumFound(a, items, 5, "cap", i.capacity);
    NumFound(a, items, 6, "policy", i.policy);
    NumFound(a, items, 7, "qos", i.qos);
    NumFound(a, items, 8, "epoch", i.epoch);
    var refs := if RefValid(i.reservation) then [i.reservation] else [];
    RefsReadable(refs);
    ListFound(a, items, 9, "reservation", refs, 1, RefText, ToRef);
    IncumbentKeyed(i);
    FinishOk(a, items, INCUMBENT_KEYS);
  }

  lemma IncumbentKeyed(i: Incumbent)
    ensures Keyed(IncumbentItems(i), INCUMBENT_KEYS)
  {
    hide Decimal, ListText, NameIn, FlagText;
  }

  lemma IncumbentOrderly(i: Incumbent)
    ensures Orderly(IncumbentItems(i))
  {
    hide Decimal, Clean, Neat, Keyed, Distinct;
    IncumbentNeat(i);
    IncumbentKeyed(i);
    KeysClean();
    IncumbentKeysDistinct();
    ItemsOrderly(IncumbentItems(i), INCUMBENT_KEYS);
  }

  lemma IncumbentNeat(i: Incumbent)
    ensures Neat(IncumbentItems(i))
  {
    hide Decimal, Clean, RefText;
    forall n: u64 ensures Clean(Decimal(n)) { NumClean(n); }
    RefBack(i.reservation);
  }

  lemma OccupiedBack(a: Args, domains: seq<u64>, l: Limits)
    requires domains != [] && ListFits(|domains|, l.maxOccupied)
    requires Holds(a, [Here("domains", ListText(domains, NumberText))])
    ensures OccupiedFrom(a, l) == Ok(domains)
  {
    hide Says, Finish, ListText, NumberText, ToNumber, Readable, ToList;
    var items := [Here("domains", ListText(domains, NumberText))];
    Found(a, items, 0);
    NumbersReadable(domains);
    ListBack(domains, l.maxOccupied, NumberText, ToNumber);
    OccupiedKeyed(domains);
    FinishOk(a, items, OCCUPIED_KEYS);
  }

  lemma OccupiedKeyed(domains: seq<u64>)
    ensures Keyed([Here("domains", ListText(domains, NumberText))], OCCUPIED_KEYS)
  {
    hide Decimal, ListText, NameIn, FlagText;
  }

  lemma OccupiedOrderly(domains: seq<u64>)
    requires domains != []
    ensures Orderly([Here("domains", ListText(domains, NumberText))])
  {
    hide Decimal, Clean, Neat, Keyed, Distinct;
    OccupiedNeat(domains);
    OccupiedKeyed(domains);
    KeysClean();
    KeysDistinct();
    ItemsOrderly([Here("domains", ListText(domains, NumberText))], OCCUPIED_KEYS);
  }

  lemma OccupiedNeat(domains: seq<u64>)
    requires domains != []
    ensures Neat([Here("domains", ListText(domains, NumberText))])
  {
    hide Clean, ListText, NumberText, ToNumber, Readable;
    NumbersReadable(domains);
    ListClean(domains, NumberText, ToNumber);
  }

  // ---- provenance -------------------------------------------------------------------------------------------------------

  /** A phrase that is one clean word. */
  predicate Speakable(b: seq<byte>) { Clean(TextOf(b)) && |b| <= MAX_PROVENANCE }

  lemma PhraseFound(a: Args, items: seq<Item>, i: nat, k: string, b: seq<byte>)
    requires Says(a, items) && i < |items| && items[i] == Here(k, PhraseText(b)) && Speakable(b)
    ensures Phrase(a, k) == Ok(b) && Clean(PhraseText(b))
  {
    Found(a, items, i);
    assert b != [];
    assert OctetsOf(TextOf(b)) == b;
  }

  lemma ProvenanceBack(a: Args, p: Provenance)
    requires Speakable(p.producer) && Speakable(p.version) && p.observed >= 0 && Holds(a, ProvenanceItems(p))
    ensures ProvenanceFrom(a) == Ok(p)
  {
    hide Says, Number, NumberOr0, Phrase, PhraseText, Decimal, Finish, Speakable;
    var items := ProvenanceItems(p);
    PhraseFound(a, items, 0, "producer", p.producer);
    PhraseFound(a, items, 1, "version", p.version);
    NumFound(a, items, 2, "sequence", p.sequence);
    NumFound(a, items, 3, "observed", p.observed);
    ProvenanceKeyed(p);
    FinishOk(a, items, PROVENANCE_KEYS);
  }

  lemma ProvenanceKeyed(p: Provenance)
    ensures Keyed(ProvenanceItems(p), PROVENANCE_KEYS)
  {
    hide Decimal, ListText, NameIn, FlagText;
  }

  lemma ProvenanceOrderly(p: Provenance)
    requires Speakable(p.producer) && Speakable(p.version) && p.observed >= 0
    ensures Orderly(ProvenanceItems(p))
  {
    hide Decimal, Clean, Neat, Keyed, Distinct;
    ProvenanceNeat(p);
    ProvenanceKeyed(p);
    KeysClean();
    KeysDistinct();
    ItemsOrderly(ProvenanceItems(p), PROVENANCE_KEYS);
  }

  lemma ProvenanceNeat(p: Provenance)
    requires Speakable(p.producer) && Speakable(p.version) && p.observed >= 0
    ensures Neat(ProvenanceItems(p))
  {
    hide Decimal, Clean;
    forall n: u64 ensures Clean(Decimal(n)) { NumClean(n); }
    assert p.producer != [] && p.version != [] by { SpeakableSaid(p.producer); SpeakableSaid(p.version); }
  }

  lemma SpeakableSaid(b: seq<byte>)
    requires Speakable(b)
    ensures b != []
  {
  }

  // ---- policies ---------------------------------------------------------------------------------------------------------

  predicate ListsNamed(p: Policy, l: Limits) {
    var r := p.rules;
    && r.objectives != [] && ListFits(|r.objectives|, l.maxObjectives) && (forall o <- r.objectives :: ObjectiveNamed(o))
    && |p.allowedTiers| <= 3 && (forall t <- p.allowedTiers :: t <= 2)
    && ListFits(|p.requiredLabels|, l.maxPolicyLists) && ListFits(|p.forbiddenLabels|, l.maxPolicyLists)
    && ListFits(|p.forbiddenLocalities|, l.maxPolicyLists) && ListFits(|p.forbiddenDomains|, l.maxPolicyLists)
    && r.requiredLocality != Some(0) && r.preferredLocality != Some(0) && r.requiredDomain != Some(0)
  }

  predicate TermsNamed(p: Policy, l: Limits) {
    ListFits(|p.affinity|, l.maxAffinity) && p.rules.onBelow <= 1
  }

  predicate MovesNamed(p: Policy) {
    p.rules.onMove <= 1 && p.rules.onMissing <= 1 && p.rules.onStale <= 1
  }

  function ListsIn(p: Policy): Lists {
    var r := p.rules;
    Lists(r.objectives, p.allowedTiers, p.requiredLabels, p.forbiddenLabels, r.requiredLocality, r.preferredLocality,
          p.forbiddenLocalities, r.requiredDomain, p.forbiddenDomains)
  }

  function TermsIn(p: Policy): Terms {
    var r := p.rules;
    Terms(r.avoidOccupied, r.minDistinct, r.affinityRequired, p.affinity, r.minHeadroom, r.onBelow, r.allowDegraded, r.relaxation)
  }

  function MovesIn(p: Policy): Moves {
    var r := p.rules;
    Moves(r.onMove, r.preferIncumbent, r.moveThreshold, r.thresholdIndex, r.onMissing, r.onStale, r.revalidateAfter)
  }

  lemma ListsBack(a: Args, p: Policy, l: Limits)
    requires ListsNamed(p, l) && Says(a, ListsItems(p))
    ensures ListsFrom(a, l) == Ok(ListsIn(p))
  {
    hide Says, NumberOr0, ListOr, ToList, ListText, NumberText, ObjectiveText, TierText, ToNumber, ToObjective, ToTier, Readable,
         ObjectiveNamed, OptionalItem, ListItem, OptionalOf;
    var items, r := ListsItems(p), p.rules;
    Found(a, items, 0);
    ObjectivesReadable(r.objectives);
    ListBack(r.objectives, l.maxObjectives, ObjectiveText, ToObjective);
    TiersReadable(p.allowedTiers);
    ListFound(a, items, 1, "tiers", p.allowedTiers, 3, TierText, ToTier);
    NumbersReadable(p.requiredLabels);
    ListFound(a, items, 2, "require-labels", p.requiredLabels, l.maxPolicyLists, NumberText, ToNumber);
    NumbersReadable(p.forbiddenLabels);
    ListFound(a, items, 3, "forbid-labels", p.forbiddenLabels, l.maxPolicyLists, NumberText, ToNumber);
    OptionalFound(a, items, 4, "locality-required", r.requiredLocality);
    OptionalFound(a, items, 5, "locality-preferred", r.preferredLocality);
    NumbersReadable(p.forbiddenLocalities);
    ListFound(a, items, 6, "locality-forbidden", p.forbiddenLocalities, l.maxPolicyLists, NumberText, ToNumber);
    OptionalFound(a, items, 7, "domain-required", r.requiredDomain);
    NumbersReadable(p.forbiddenDomains);
    ListFound(a, items, 8, "domain-forbidden", p.forbiddenDomains, l.maxPolicyLists, NumberText, ToNumber);
  }

  lemma TermsBack(a: Args, p: Policy, l: Limits)
    requires TermsNamed(p, l) && Says(a, TermsItems(p))
    ensures TermsFrom(a, l) == Ok(TermsIn(p))
  {
    hide Says, NumberOr0, Number32Or0, Flag, NamedOr, ListOr, RefText, ToRef, Readable, ListItem, NameIn, FlagText, Decimal, Distinct;
    var items, r := TermsItems(p), p.rules;
    TablesDistinct();
    FlagFound(a, items, 0, "domain-avoid-occupied", r.avoidOccupied);
    NumFound(a, items, 1, "domain-min-distinct", r.minDistinct);
    FlagFound(a, items, 2, "affinity-required", r.affinityRequired);
    RefsReadable(p.affinity);
    ListFound(a, items, 3, "affinity-refs", p.affinity, l.maxAffinity, RefText, ToRef);
    NumFound(a, items, 4, "admission-headroom", r.minHeadroom);
    NameFound(a, items, 5, "admission-action", GATES, r.onBelow, 0);
    FlagFound(a, items, 6, "service-degraded", r.allowDegraded);
    NumFound(a, items, 7, "service-relaxation", r.relaxation);
  }

  lemma MovesBack(a: Args, p: Policy)
    requires MovesNamed(p) && Says(a, MovesItems(p))
    ensures MovesFrom(a) == Ok(MovesIn(p))
  {
    hide Says, NumberOr0, Number32Or0, Flag, NamedOr, NameIn, FlagText, Decimal, Distinct;
    var items, r := MovesItems(p), p.rules;
    TablesDistinct();
    NameFound(a, items, 0, "churn-action", CHURNS, r.onMove, 0);
    FlagFound(a, items, 1, "churn-prefer-incumbent", r.preferIncumbent);
    NumFound(a, items, 2, "churn-threshold", r.moveThreshold);
    NumFound(a, items, 3, "churn-threshold-objective", r.thresholdIndex);
    NameFound(a, items, 4, "evidence-missing", MODES, r.onMissing, 1);
    NameFound(a, items, 5, "evidence-stale", MODES, r.onStale, 1);
    NumFound(a, items, 6, "revalidate", r.revalidateAfter);
  }

  lemma PolicyBack(a: Args, p: Policy, l: Limits)
    requires ListsNamed(p, l) && TermsNamed(p, l) && MovesNamed(p) && Holds(a, PolicyItems(p))
    ensures PolicyFrom(a, l) == Ok(p)
  {
    hide Says, NameFrom, ListsFrom, TermsFrom, MovesFrom, Finish, NameItems, ListsItems, TermsItems, MovesItems, ListsNamed,
         TermsNamed, MovesNamed;
    var n := Name(p.id, p.generation);
    SaysParts(a, NameItems(n) + ListsItems(p) + TermsItems(p), MovesItems(p));
    SaysParts(a, NameItems(n) + ListsItems(p), TermsItems(p));
    SaysParts(a, NameItems(n), ListsItems(p));
    NameBackFrom(a, n);
    ListsBack(a, p, l);
    TermsBack(a, p, l);
    MovesBack(a, p);
    PolicyKeyed(p);
    FinishOk(a, PolicyItems(p), POLICY_KEYS);
  }

  lemma PolicyKeyed(p: Policy)
    ensures Keyed(PolicyItems(p), POLICY_KEYS)
  {
    hide NameItems, ListsItems, TermsItems, MovesItems, Keyed;
    var n := Name(p.id, p.generation);
    NameKeyed(n);
    ListsKeyed(p);
    TermsKeyed(p);
    MovesKeyed(p);
    KeyedJoin(NameItems(n), NAME_KEYS, ListsItems(p), LISTS_KEYS);
    KeyedJoin(NameItems(n) + ListsItems(p), NAME_KEYS + LISTS_KEYS, TermsItems(p), TERMS_KEYS);
    KeyedJoin(NameItems(n) + ListsItems(p) + TermsItems(p), NAME_KEYS + LISTS_KEYS + TERMS_KEYS, MovesItems(p), MOVES_KEYS);
  }

  lemma ListsKeyed(p: Policy)
    ensures Keyed(ListsItems(p), LISTS_KEYS)
  {
    hide Decimal, ListText;
  }

  lemma TermsKeyed(p: Policy)
    ensures Keyed(TermsItems(p), TERMS_KEYS)
  {
    hide Decimal, ListText, NameIn, FlagText;
  }

  lemma MovesKeyed(p: Policy)
    ensures Keyed(MovesItems(p), MOVES_KEYS)
  {
    hide Decimal, NameIn, FlagText;
  }

  lemma NeatJoin(x: seq<Item>, y: seq<Item>)
    requires Neat(x) && Neat(y)
    ensures Neat(x + y)
  {
    hide Clean;
  }

  lemma PolicyOrderly(p: Policy, l: Limits)
    requires ListsNamed(p, l) && TermsNamed(p, l) && MovesNamed(p)
    ensures Orderly(PolicyItems(p))
  {
    hide Clean, Neat, Keyed, Distinct, ListsNamed, TermsNamed, MovesNamed, NameItems, ListsItems, TermsItems, MovesItems;
    var n := Name(p.id, p.generation);
    NameNeat(n);
    ListsNeat(p, l);
    TermsNeat(p, l);
    MovesNeat(p);
    NeatJoin(NameItems(n), ListsItems(p));
    NeatJoin(NameItems(n) + ListsItems(p), TermsItems(p));
    NeatJoin(NameItems(n) + ListsItems(p) + TermsItems(p), MovesItems(p));
    PolicyKeyed(p);
    KeysClean();
    assert forall k <- POLICY_KEYS :: k in NAME_KEYS || k in LISTS_KEYS || k in TERMS_KEYS || k in MOVES_KEYS;
    PolicyKeysDistinct();
    ItemsOrderly(PolicyItems(p), POLICY_KEYS);
  }

  lemma ListsNeat(p: Policy, l: Limits)
    requires ListsNamed(p, l)
    ensures Neat(ListsItems(p))
  {
    hide Decimal, Clean, ListText, NumberText, ObjectiveText, TierText, ToNumber, ToObjective, ToTier, Readable, ObjectiveNamed;
    forall n: u64 ensures Clean(Decimal(n)) { NumClean(n); }
    ObjectivesReadable(p.rules.objectives);
    ListClean(p.rules.objectives, ObjectiveText, ToObjective);
    TiersReadable(p.allowedTiers);
    if p.allowedTiers != [] { ListClean(p.allowedTiers, TierText, ToTier); }
    IdsNeat(p.requiredLabels);
    IdsNeat(p.forbiddenLabels);
    IdsNeat(p.forbiddenLocalities);
    IdsNeat(p.forbiddenDomains);
  }

  lemma IdsNeat(xs: seq<u64>)
    ensures xs != [] ==> Clean(ListText(xs, NumberText))
  {
    hide Clean, ListText, NumberText, ToNumber, Readable;
    NumbersReadable(xs);
    if xs != [] { ListClean(xs, NumberText, ToNumber); }
  }

  lemma TermsNeat(p: Policy, l: Limits)
    requires TermsNamed(p, l)
    ensures Neat(TermsItems(p))
  {
    hide Decimal, Clean, Plain, ListText, RefText, ToRef, Readable, FlagText, NameIn;
    forall n: u64 ensures Clean(Decimal(n)) { NumClean(n); }
    TablesPlain();
    NameClean(GATES, p.rules.onBelow);
    FlagsClean();
    RefsReadable(p.affinity);
    if p.affinity != [] { ListClean(p.affinity, RefText, ToRef); }
  }

  lemma FlagsClean()
    ensures forall b: bool :: Clean(FlagText(b))
  {
    FlagBack(true);
    FlagBack(false);
  }

  lemma MovesNeat(p: Policy)
    requires MovesNamed(p)
    ensures Neat(MovesItems(p))
  {
    hide Decimal, Clean, Plain, FlagText, NameIn;
    forall n: u64 ensures Clean(Decimal(n)) { NumClean(n); }
    TablesPlain();
    NameClean(CHURNS, p.rules.onMove);
    NameClean(MODES, p.rules.onMissing);
    NameClean(MODES, p.rules.onStale);
    FlagsClean();
  }
}
