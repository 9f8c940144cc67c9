/** The vocabulary is unambiguous, and the pairs written on a line are the arguments read from it. */
module ScenarioArgs {
  import opened Bytes
  import opened Records
  import opened Model
  import opened ScenarioText
  import opened Scenario
  import opened ScenarioWriter

  // ---- the vocabulary is unambiguous -----------------------------------------------------------------------

  /** The directive that a title belongs to. */
  function LineTitled(w: string): Directive {
    if |w| <= 3 then QosLine
    else if |w| == 4 then (if w[0] == 'f' then FlowLine else if w[0] == 'p' then PathLine else UtilLine)
    else if |w| == 5 then EntryLine
    else if |w| == 6 then PolicyLine
    else if |w| == 7 then (if w[0] == 'a' then AttemptLine else VersionLine)
    else if |w| == 8 then (if w[1] == 'a' then CapacityLine else if w[1] == 'c' then OccupiedLine
         else if w[1] == 'v' then EvidenceLine else ExpectedLine)
    else if |w| == 9 then IncumbentLine
    else if |w| == 10 then ProvenanceLine
    else CandidatesetLine
  }

  lemma TitleTells(d: Directive)
    ensures LineTitled(Title(d)) == d
  {
  }

  lemma Recognized(d: Directive)
    ensures Recognize(Title(d)) == Some(d)
  {
    hide Title, LineTitled;
    var r := Recognize(Title(d));
    if r.Some? {
      TitleTells(d);
      TitleTells(r.value);
    }
  }

  lemma CleanWords1()
    ensures Clean("id") && Clean("gen") && Clean("auth") && Clean("tier") && Clean("locality") && Clean("scope")
    ensures Clean("domain") && Clean("cost")
  {
  }

  lemma CleanWords2()
    ensures Clean("latency") && Clean("hops") && Clean("labels") && Clean("reservations") && Clean("path")
    ensures Clean("total") && Clean("residual") && Clean("class")
  {
  }

  lemma CleanWords3()
    ensures Clean("priority") && Clean("required") && Clean("maxlatency") && Clean("ppb") && Clean("objectives")
    ensures Clean("tiers") && Clean("require-labels") && Clean("forbid-labels")
  {
  }

  lemma CleanWords4()
    ensures Clean("locality-required") && Clean("locality-preferred") && Clean("locality-forbidden")
    ensures Clean("domain-required") && Clean("domain-forbidden") && Clean("domain-avoid-occupied")
    ensures Clean("domain-min-distinct") && Clean("affinity-required")
  {
  }

  lemma CleanWords5()
    ensures Clean("affinity-refs") && Clean("admission-headroom") && Clean("admission-action")
    ensures Clean("service-degraded") && Clean("service-relaxation") && Clean("churn-action")
    ensures Clean("churn-prefer-incumbent") && Clean("churn-threshold")
  {
  }

  lemma CleanWords6()
    ensures Clean("churn-threshold-objective") && Clean("evidence-missing") && Clean("evidence-stale")
    ensures Clean("revalidate") && Clean("pathauth") && Clean("cset") && Clean("cap") && Clean("policy")
  {
  }

  lemma CleanWords7()
    ensures Clean("qos") && Clean("epoch") && Clean("reservation") && Clean("domains") && Clean("evidence")
    ensures Clean("producer") && Clean("version") && Clean("sequence")
  {
  }

  lemma CleanWords8()
    ensures Clean("observed")
  {
  }

  lemma KeysClean()
    ensures forall k <- NAME_KEYS :: Clean(k)
    ensures forall k <- PATH_KEYS :: Clean(k)
    ensures forall k <- ENTRY_KEYS :: Clean(k)
    ensures forall k <- UTIL_KEYS :: Clean(k)
    ensures forall k <- QOS_KEYS :: Clean(k)
    ensures forall k <- LISTS_KEYS :: Clean(k)
    ensures forall k <- TERMS_KEYS :: Clean(k)
    ensures forall k <- MOVES_KEYS :: Clean(k)
    ensures forall k <- INCUMBENT_KEYS :: Clean(k)
    ensures forall k <- EXPECTED_KEYS :: Clean(k)
    ensures forall k <- OCCUPIED_KEYS :: Clean(k)
    ensures forall k <- PROVENANCE_KEYS :: Clean(k)
    ensures forall k <- ATTEMPT_KEYS :: Clean(k)
  {
    hide Clean;
    CleanWords1();
    CleanWords2();
    CleanWords3();
    CleanWords4();
    CleanWords5();
    CleanWords6();
    CleanWords7();
    CleanWords8();
  }

  lemma KeysDistinct()
    ensures Distinct(NAME_KEYS)
    ensures Distinct(PATH_KEYS)
    ensures Distinct(ENTRY_KEYS)
    ensures Distinct(UTIL_KEYS)
    ensures Distinct(QOS_KEYS)
    ensures Distinct(LISTS_KEYS)
    ensures Distinct(TERMS_KEYS)
    ensures Distinct(MOVES_KEYS)
    ensures Distinct(EXPECTED_KEYS)
    ensures Distinct(OCCUPIED_KEYS)
    ensures Distinct(PROVENANCE_KEYS)
    ensures Distinct(ATTEMPT_KEYS)
  {
  }

  lemma IncumbentKeysDistinct()
    ensures Distinct(INCUMBENT_KEYS)
  {
  }

  lemma DistinctJoin(x: seq<string>, y: seq<string>)
    requires Distinct(x) && Distinct(y) && forall w <- x :: w !in y
    ensures Distinct(x + y)
  {
    var z := x + y;
    forall i, j | 0 <= i < j < |z| ensures z[i] != z[j] {
      if i < |x| <= j { assert z[i] in x && z[j] in y; }
    }
  }

  lemma NamesApart()
    ensures forall w <- NAME_KEYS :: w !in LISTS_KEYS && w !in TERMS_KEYS && w !in MOVES_KEYS
  {
  }

  lemma ListsApart()
    ensures forall w <- LISTS_KEYS :: w !in TERMS_KEYS
  {
  }

  lemma ListsFromMoves()
    ensures forall w <- LISTS_KEYS :: w !in MOVES_KEYS
  {
  }

  lemma TermsApart()
    ensures forall w <- TERMS_KEYS :: w !in MOVES_KEYS
  {
  }

  lemma PolicyKeysDistinct()
    ensures Distinct(POLICY_KEYS)
  {
    KeysDistinct();
    hide Distinct;
    NamesApart();
    ListsApart();
    ListsFromMoves();
    TermsApart();
    DistinctJoin(NAME_KEYS, LISTS_KEYS);
    DistinctJoin(NAME_KEYS + LISTS_KEYS, TERMS_KEYS);
    DistinctJoin(NAME_KEYS + LISTS_KEYS + TERMS_KEYS, MOVES_KEYS);
  }

  lemma TitleClean(d: Directive)
    ensures Clean(Title(d))
  {
  }

  // ---- arguments ----------------------------------------------------------------------------------------------

  /** Each key once. */
  predicate Apart(items: seq<Item>) {
    forall i, j :: 0 <= i < j < |items| ==> items[i].key != items[j].key
  }

  /** The items are under these keys, in this order. */
  predicate Keyed(items: seq<Item>, ks: seq<string>) {
    |items| == |ks| && forall i :: 0 <= i < |items| ==> items[i].key == ks[i]
  }

  lemma KeyedApart(items: seq<Item>, ks: seq<string>)
    requires Keyed(items, ks) && Distinct(ks)
    ensures Apart(items)
  {
  }

  lemma KeyedJoin(x: seq<Item>, a: seq<string>, y: seq<Item>, b: seq<string>)
    requires Keyed(x, a) && Keyed(y, b)
    ensures Keyed(x + y, a + b)
  {
  }

  /** Every item is found under its key. */
  predicate Says(a: Args, items: seq<Item>) {
    forall i :: 0 <= i < |items| ==> Look(a, items[i].key) == items[i].value
  }

  /** These arguments are what the items say, and nothing else. */
  predicate Holds(a: Args, items: seq<Item>) {
    && Says(a, items)
    && (forall w <- a :: exists i :: 0 <= i < |items| && items[i].key == w)
  }

  function Made(items: seq<Item>, a: Args): Args {
    if items == [] then a
    else Made(items[1..], match items[0].value case None => a case Some(v) => a[items[0].key := v])
  }

  /** The keys of these items are not among the arguments yet. */
  predicate Absent(items: seq<Item>, a: Args) {
    forall i :: 0 <= i < |items| ==> items[i].key !in a
  }

  lemma ApartRest(items: seq<Item>, a: Args)
    requires items != [] && Apart(items) && Absent(items, a)
    ensures Apart(items[1..]) && Absent(items[1..], a)
    ensures items[0].value.Some? ==> Absent(items[1..], a[items[0].key := items[0].value.value])
  {
    var rest := items[1..];
    forall i, j | 0 <= i < j < |rest| ensures rest[i].key != rest[j].key {
      assert rest[i] == items[i + 1] && rest[j] == items[j + 1];
    }
    forall i | 0 <= i < |rest| ensures rest[i].key !in a && rest[i].key != items[0].key {
      assert rest[i] == items[i + 1];
    }
  }

  lemma {:induction false} FlatPairs(items: seq<Item>, a: Args)
    requires Apart(items) && Absent(items, a)
    ensures |Flat(items)| % 2 == 0 && |Flat(items)| <= 2 * |items|
    ensures Pairs(Flat(items), a) == Ok(Made(items, a))
    decreases |items|
  {
    hide Apart, Absent;
    if items != [] {
      ApartRest(items, a);
      match items[0].value {
        case None =>
          assert [] + Flat(items[1..]) == Flat(items[1..]);
          FlatPairs(items[1..], a);
        case Some(v) =>
          var pair := [items[0].key, v];
          var b := a[items[0].key := v];
          FlatPairs(items[1..], b);
          assert Flat(items) == pair + Flat(items[1..]);
          assert Flat(items)[2..] == Flat(items[1..]);
          AbsentFirst(items, a);
      }
    }
  }

  lemma AbsentFirst(items: seq<Item>, a: Args)
    requires items != [] && Absent(items, a)
    ensures items[0].key !in a
  {
  }

  /** What was there stays, and every item is found under its key. */
  lemma {:induction false} MadeHolds(items: seq<Item>, a: Args)
    requires Apart(items) && Absent(items, a)
    ensures forall w <- a :: w in Made(items, a) && Made(items, a)[w] == a[w]
    ensures forall i :: 0 <= i < |items| ==> Look(Made(items, a), items[i].key) == items[i].value
    ensures forall w <- Made(items, a) :: w in a || exists i :: 0 <= i < |items| && items[i].key == w
    decreases |items|
  {
    hide Apart, Absent;
    if items != [] {
      var x, rest := items[0], items[1..];
      ApartRest(items, a);
      AbsentFirst(items, a);
      var b := match x.value case None => a case Some(v) => a[x.key := v];
      MadeHolds(rest, b);
      var m := Made(items, a);
      assert m == Made(rest, b);
      FirstStays(items, a);
      forall i | 0 <= i < |items| ensures Look(m, items[i].key) == items[i].value {
        if i > 0 { assert items[i] == rest[i - 1]; }
      }
      forall w | w in m && w !in a ensures exists i :: 0 <= i < |items| && items[i].key == w {
        if w in b {
          assert items[0].key == w;
        } else {
          var i :| 0 <= i < |rest| && rest[i].key == w;
          assert items[i + 1].key == w;
        }
      }
    }
  }

  /** A key that is not written is not found. */
  lemma {:induction false} StaysAbsent(items: seq<Item>, a: Args, w: string)
    requires w !in a && forall i :: 0 <= i < |items| ==> items[i].key != w
    ensures w !in Made(items, a)
    decreases |items|
  {
    if items != [] {
      var b := match items[0].value case None => a case Some(v) => a[items[0].key := v];
      forall i | 0 <= i < |items[1..]| ensures items[1..][i].key != w { assert items[1..][i] == items[i + 1]; }
      StaysAbsent(items[1..], b, w);
    }
  }

  lemma FirstStays(items: seq<Item>, a: Args)
    requires items != [] && Apart(items) && Absent(items, a)
    ensures items[0].value.None? ==> items[0].key !in Made(items, a)
  {
    if items[0].value.None? {
      forall i | 0 <= i < |items[1..]| ensures items[1..][i].key != items[0].key {
        assert items[1..][i] == items[i + 1];
      }
      StaysAbsent(items[1..], a, items[0].key);
    }
  }

  /** The tokens of distinct items, no more than a line may have, are read as those items. */
  lemma ArgsBack(items: seq<Item>)
    requires Apart(items) && |items| <= MAX_KEYS
    ensures ArgsOf(Flat(items)) == Ok(Made(items, map[])) && Holds(Made(items, map[]), items)
  {
    hide Apart, Pairs, Made, Flat;
    FlatPairs(items, map[]);
    MadeHolds(items, map[]);
  }
}
