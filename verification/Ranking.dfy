/** The lexicographic order on candidates, and the one ranking it gives. */
module Ranking {
  import opened Bytes
  import opened Model

  /** One ranking key; an unknown key is not a zero. */
  datatype Key = Key(kind: u8, direction: u8, known: bool, value: u64)

  /** A candidate as ranking sees it: its labels and reservations are sets. */
  datatype Route = Route(
    id: u64, authority: u64, tier: u8, locality: u64, domain: u64, cost: u64, latency: u64, hops: u16,
    labels: set<u64>, reservations: set<Ref>)

  datatype Entry = Entry(
    route: Route, residual: u64, isIncumbent: bool, multiplierRelaxed: bool, reservationRelaxed: bool,
    hasUnknown: bool, keys: seq<Key>)

  /** Negative when a comes first, zero when this key does not decide. */
  function CompareKey(a: Key, b: Key): int {
    if a.known != b.known then (if a.known then -1 else 1)
    else if !a.known || a.value == b.value then 0
    else if (a.direction == MINIMIZE) == (a.value < b.value) then -1
    else 1
  }

  /** The first key that decides. */
  function CompareKeys(a: seq<Key>, b: seq<Key>): int {
    if a == [] || b == [] then 0
    else if CompareKey(a[0], b[0]) != 0 then CompareKey(a[0], b[0])
    else CompareKeys(a[1..], b[1..])
  }

  /** Keys in order, and the path id as the last word. */
  predicate RankLess(a: Entry, b: Entry) {
    var c := CompareKeys(a.keys, b.keys);
    if c != 0 then c < 0 else a.route.id < b.route.id
  }

  /** Both were ranked by the same objectives. */
  predicate Alike(a: seq<Key>, b: seq<Key>) {
    |a| == |b| && forall i :: 0 <= i < |a| ==> a[i].direction == b[i].direction
  }

  lemma AlikeTail(a: seq<Key>, b: seq<Key>)
    requires Alike(a, b) && a != []
    ensures Alike(a[1..], b[1..])
  {
  }

  lemma {:induction false} CompareMirrors(a: seq<Key>, b: seq<Key>)
    requires Alike(a, b)
    ensures CompareKeys(a, b) == -CompareKeys(b, a)
    decreases |a|
  {
    if a != [] {
      AlikeTail(a, b);
      CompareMirrors(a[1..], b[1..]);
    }
  }

  lemma {:induction false} CompareChains(a: seq<Key>, b: seq<Key>, c: seq<Key>)
    requires Alike(a, b) && Alike(b, c)
    ensures CompareKeys(a, b) <= 0 && CompareKeys(b, c) <= 0 ==> CompareKeys(a, c) <= 0
    ensures CompareKeys(a, b) <= 0 && CompareKeys(b, c) <= 0 && CompareKeys(a, c) == 0 ==>
              CompareKeys(a, b) == 0 && CompareKeys(b, c) == 0
    decreases |a|
  {
    if a != [] {
      AlikeTail(a, b);
      AlikeTail(b, c);
      CompareChains(a[1..], b[1..], c[1..]);
    }
  }

  /** The order is strict, transitive, and decides between any two candidates with different ids. */
  lemma RankLessIsStrictTotal(a: Entry, b: Entry, c: Entry)
    requires Alike(a.keys, b.keys) && Alike(b.keys, c.keys)
    ensures !RankLess(a, a)
    ensures RankLess(a, b) ==> !RankLess(b, a)
    ensures RankLess(a, b) && RankLess(b, c) ==> RankLess(a, c)
    ensures a.route.id != b.route.id ==> RankLess(a, b) || RankLess(b, a)
  {
    hide CompareKeys;
    CompareMirrors(a.keys, a.keys);
    CompareMirrors(a.keys, b.keys);
    CompareMirrors(b.keys, c.keys);
    CompareMirrors(a.keys, c.keys);
    CompareChains(a.keys, b.keys, c.keys);
  }

  /** Where the keys before it tie, a known key ranks before an unknown one, whatever its direction and value. */
  lemma {:induction false} UnknownIsLast(a: Entry, b: Entry, i: nat)
    requires Alike(a.keys, b.keys) && i < |a.keys|
    requires forall j :: 0 <= j < i ==> CompareKey(a.keys[j], b.keys[j]) == 0
    requires a.keys[i].known && !b.keys[i].known
    ensures RankLess(a, b) && !RankLess(b, a)
    decreases i
  {
    if i > 0 {
      var a', b' := a.(keys := a.keys[1..]), b.(keys := b.keys[1..]);
      AlikeTail(a.keys, b.keys);
      forall j | 0 <= j < i - 1 ensures CompareKey(a'.keys[j], b'.keys[j]) == 0 {
        assert CompareKey(a.keys[j + 1], b.keys[j + 1]) == 0;
      }
      UnknownIsLast(a', b', i - 1);
      CompareMirrors(a.keys, b.keys);
      CompareMirrors(a'.keys, b'.keys);
      assert CompareKeys(a.keys, b.keys) == CompareKeys(a'.keys, b'.keys);
      UnknownDecides(a'.keys, b'.keys, i - 1);
    } else {
      CompareMirrors(a.keys, b.keys);
    }
  }

  lemma {:induction false} UnknownDecides(a: seq<Key>, b: seq<Key>, i: nat)
    requires Alike(a, b) && i < |a| && a[i].known && !b[i].known
    requires forall j :: 0 <= j < i ==> CompareKey(a[j], b[j]) == 0
    ensures CompareKeys(a, b) < 0
    decreases i
  {
    if i > 0 {
      AlikeTail(a, b);
      forall j | 0 <= j < i - 1 ensures CompareKey(a[1..][j], b[1..][j]) == 0 {
        assert CompareKey(a[j + 1], b[j + 1]) == 0;
      }
      UnknownDecides(a[1..], b[1..], i - 1);
    }
  }

  // ---- the ranking ------------------------------------------------------------------------------------

  function InsertRanked(e: Entry, s: seq<Entry>): seq<Entry> {
    if s == [] || RankLess(e, s[0]) then [e] + s else [s[0]] + InsertRanked(e, s[1..])
  }

  function Ranked(s: seq<Entry>): seq<Entry> {
    if s == [] then [] else InsertRanked(s[0], Ranked(s[1..]))
  }

  /** Entries ranked by the same objectives, each a different path. */
  predicate Comparable(s: seq<Entry>) {
    && (forall a <- s, b <- s :: Alike(a.keys, b.keys))
    && (forall i, j :: 0 <= i < j < |s| ==> s[i].route.id != s[j].route.id)
  }

  lemma {:induction false} InsertRankedMembers(e: Entry, s: seq<Entry>)
    ensures forall x :: x in InsertRanked(e, s) <==> x == e || x in s
    ensures |InsertRanked(e, s)| == |s| + 1
    decreases |s|
  {
    hide RankLess;
    if s != [] && !RankLess(e, s[0]) {
      InsertRankedMembers(e, s[1..]);
      assert forall x :: x in s <==> x == s[0] || x in s[1..];
    }
  }

  lemma {:induction false} RankedMembers(s: seq<Entry>)
    ensures forall x :: x in Ranked(s) <==> x in s
    ensures |Ranked(s)| == |s|
    decreases |s|
  {
    if s != [] {
      RankedMembers(s[1..]);
      InsertRankedMembers(s[0], Ranked(s[1..]));
      assert forall x :: x in s <==> x == s[0] || x in s[1..];
    }
  }

  predicate InRank(s: seq<Entry>) {
    forall i, j :: 0 <= i < j < |s| ==> RankLess(s[i], s[j])
  }

  lemma {:induction false} InsertRankedKeeps(e: Entry, s: seq<Entry>)
    requires InRank(s) && forall x <- s :: Alike(x.keys, e.keys) && Alike(e.keys, x.keys) && x.route.id != e.route.id
    requires forall x <- s, y <- s :: Alike(x.keys, y.keys)
    ensures InRank(InsertRanked(e, s)) && |InsertRanked(e, s)| == |s| + 1
    ensures forall x :: x in InsertRanked(e, s) <==> x == e || x in s
    decreases |s|
  {
    hide Alike, CompareKeys, RankLess;
    if s == [] {
    } else if RankLess(e, s[0]) {
      Heads(e, s);
    } else {
      var rest := InsertRanked(e, s[1..]);
      assert InRank(s[1..]) by { TailInRank(s); }
      assert forall x <- s[1..] :: x in s;
      InsertRankedKeeps(e, s[1..]);
      RankLessIsStrictTotal(s[0], e, s[0]);
      forall x | x in rest ensures RankLess(s[0], x) {
        if x != e {
          var i :| 0 <= i < |s[1..]| && s[1..][i] == x;
          assert s[i + 1] == x;
        }
      }
      Headed(s[0], rest);
    }
  }

  lemma TailInRank(s: seq<Entry>)
    requires InRank(s) && s != []
    ensures InRank(s[1..])
  {
    hide RankLess;
    forall i, j | 0 <= i < j < |s[1..]| ensures RankLess(s[1..][i], s[1..][j]) {
      assert RankLess(s[i + 1], s[j + 1]);
    }
  }

  lemma Headed(x: Entry, s: seq<Entry>)
    requires InRank(s) && forall y <- s :: RankLess(x, y)
    ensures InRank([x] + s)
  {
    hide RankLess;
    var all := [x] + s;
    forall i, j | 0 <= i < j < |all| ensures RankLess(all[i], all[j]) {
      assert all[j] == s[j - 1] && all[j] in s;
      assert i > 0 ==> all[i] == s[i - 1];
    }
  }

  lemma Heads(e: Entry, s: seq<Entry>)
    requires InRank(s) && s != [] && RankLess(e, s[0])
    requires forall x <- s :: Alike(x.keys, e.keys) && Alike(e.keys, x.keys)
    requires forall x <- s, y <- s :: Alike(x.keys, y.keys)
    ensures InRank([e] + s)
  {
    hide RankLess, Alike;
    forall y | y in s ensures RankLess(e, y) {
      var i :| 0 <= i < |s| && s[i] == y;
      if i > 0 {
        assert RankLess(s[0], s[i]);
        RankLessIsStrictTotal(e, s[0], y);
      }
    }
    Headed(e, s);
  }

  lemma {:induction false} RankedKeeps(s: seq<Entry>)
    requires Comparable(s)
    ensures InRank(Ranked(s)) && |Ranked(s)| == |s|
    ensures forall x :: x in Ranked(s) <==> x in s
    decreases |s|
  {
    hide Alike, RankLess, InRank;
    if s == [] {
      EmptyInRank();
    } else {
      RankedKeeps(s[1..]);
      assert forall x :: x in s <==> x == s[0] || x in s[1..];
      InsertRankedKeeps(s[0], Ranked(s[1..]));
    }
  }

  lemma EmptyInRank()
    ensures InRank([])
  {
  }

  /** There is one ranking of a set of candidates. */
  lemma {:induction false} InRankUnique(a: seq<Entry>, b: seq<Entry>)
    requires InRank(a) && InRank(b) && forall x :: x in a <==> x in b
    requires forall x <- a, y <- a :: Alike(x.keys, y.keys)
    ensures a == b
    decreases |a|
  {
    hide Alike, RankLess;
    Inhabited(a);
    Inhabited(b);
    if a != [] && b != [] {
      assert a[0] in a && b[0] in b;
      assert a[0] == b[0] by {
        var i :| 0 <= i < |b| && b[i] == a[0];
        var j :| 0 <= j < |a| && a[j] == b[0];
        Before(b, i);
        Before(a, j);
        RankLessIsStrictTotal(a[0], b[0], a[0]);
      }
      forall x ensures x in a[1..] <==> x in b[1..] {
        NotAgain(a);
        NotAgain(b);
        assert x in a <==> x == a[0] || x in a[1..];
        assert x in b <==> x == b[0] || x in b[1..];
      }
      TailInRank(a);
      TailInRank(b);
      InRankUnique(a[1..], b[1..]);
      assert a == [a[0]] + a[1..] && b == [b[0]] + b[1..];
    }
  }

  lemma Before(s: seq<Entry>, i: nat)
    requires InRank(s) && i < |s|
    ensures i == 0 || RankLess(s[0], s[i])
  {
    hide RankLess;
  }

  lemma Inhabited(q: seq<Entry>)
    ensures q == [] || exists x :: x in q
  {
    if q != [] { assert q[0] in q; }
  }

  lemma NotAgain(a: seq<Entry>)
    requires InRank(a) && a != []
    ensures a[0] !in a[1..]
  {
    hide CompareKeys;
    forall x | x in a[1..] ensures x != a[0] {
      var i :| 0 <= i < |a[1..]| && a[1..][i] == x;
      assert RankLess(a[0], a[i + 1]);
      CompareMirrors(x.keys, x.keys);
    }
  }

  /** The order candidates are listed in does not show in their ranking. */
  lemma SameRanking(s: seq<Entry>, t: seq<Entry>)
    requires Comparable(s) && Comparable(t) && forall x :: x in s <==> x in t
    ensures Ranked(s) == Ranked(t)
  {
    hide Alike, RankLess, InRank, Ranked;
    RankedKeeps(s);
    RankedKeeps(t);
    InRankUnique(Ranked(s), Ranked(t));
  }
}
