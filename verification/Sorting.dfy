/** Sorting by a numeric key, and what adjacent elements tell about duplicates. */
module Sorting {
  import opened Bytes

  function Insert<T>(x: T, s: seq<T>, key: T -> nat): seq<T> {
    if s == [] || key(x) <= key(s[0]) then [x] + s else [s[0]] + Insert(x, s[1..], key)
  }

  /** The elements by ascending key, equal keys in their given order. */
  function SortBy<T>(s: seq<T>, key: T -> nat): seq<T> {
    if s == [] then [] else Insert(s[0], SortBy(s[1..], key), key)
  }

  predicate Ascends<T>(s: seq<T>, key: T -> nat) {
    forall i, j :: 0 <= i < j < |s| ==> key(s[i]) <= key(s[j])
  }

  predicate Climbs<T>(s: seq<T>, key: T -> nat) {
    forall i, j :: 0 <= i < j < |s| ==> key(s[i]) < key(s[j])
  }

  /** No two elements share a key. */
  predicate Unique<T>(s: seq<T>, key: T -> nat) {
    forall i, j :: 0 <= i < j < |s| ==> key(s[i]) != key(s[j])
  }

  /** Neighbours have different keys. */
  predicate NoTwins<T>(s: seq<T>, key: T -> nat) {
    forall i :: 0 < i < |s| ==> key(s[i]) != key(s[i - 1])
  }

  lemma {:induction false} InsertHolds<T>(x: T, s: seq<T>, key: T -> nat)
    ensures multiset(Insert(x, s, key)) == multiset([x] + s)
    ensures |Insert(x, s, key)| == |s| + 1
    decreases |s|
  {
    if s != [] && key(x) > key(s[0]) {
      var rest := Insert(x, s[1..], key);
      InsertHolds(x, s[1..], key);
      assert s == [s[0]] + s[1..];
      assert multiset([s[0]] + rest) == multiset{s[0]} + multiset(rest);
      assert multiset([x] + s) == multiset{x} + multiset{s[0]} + multiset(s[1..]);
    }
  }

  lemma {:induction false} InsertKeeps<T>(x: T, s: seq<T>, key: T -> nat)
    requires Ascends(s, key)
    ensures multiset(Insert(x, s, key)) == multiset([x] + s) && Ascends(Insert(x, s, key), key)
    ensures |Insert(x, s, key)| == |s| + 1
    decreases |s|
  {
    InsertHolds(x, s, key);
    if s != [] && key(x) > key(s[0]) {
      var rest := Insert(x, s[1..], key);
      InsertKeeps(x, s[1..], key);
      forall y | y in rest ensures key(s[0]) <= key(y) {
        assert y in multiset(rest) && y in multiset([x] + s[1..]);
      }
      Prefixed(s[0], rest, key);
    } else {
      Prefixed(x, s, key);
    }
  }

  lemma Prefixed<T>(x: T, s: seq<T>, key: T -> nat)
    requires Ascends(s, key) && (s == [] || key(x) <= key(s[0]) || forall y <- s :: key(x) <= key(y))
    ensures Ascends([x] + s, key)
  {
    var all := [x] + s;
    forall i, j | 0 <= i < j < |all| ensures key(all[i]) <= key(all[j]) {
      assert all[j] == s[j - 1] && all[j] in s;
      assert i > 0 ==> all[i] == s[i - 1];
      assert key(s[0]) <= key(s[j - 1]);
    }
  }

  lemma {:induction false} SortKeeps<T>(s: seq<T>, key: T -> nat)
    ensures multiset(SortBy(s, key)) == multiset(s) && Ascends(SortBy(s, key), key)
    ensures |SortBy(s, key)| == |s|
    ensures forall x :: x in SortBy(s, key) <==> x in s
    decreases |s|
  {
    if s != [] {
      SortKeeps(s[1..], key);
      InsertKeeps(s[0], SortBy(s[1..], key), key);
      assert s == [s[0]] + s[1..];
    }
    assert forall x :: x in SortBy(s, key) <==> x in multiset(SortBy(s, key));
    assert forall x :: x in s <==> x in multiset(s);
  }

  lemma ClimbsExactly<T>(s: seq<T>, key: T -> nat)
    requires Ascends(s, key)
    ensures NoTwins(s, key) <==> Climbs(s, key)
    ensures Climbs(s, key) <==> Unique(s, key)
  {
    if NoTwins(s, key) {
      forall i, j | 0 <= i < j < |s| ensures key(s[i]) < key(s[j]) {
        assert key(s[i]) <= key(s[i + 1]) && key(s[i + 1]) != key(s[i]);
        assert i + 1 == j || key(s[i + 1]) <= key(s[j]);
      }
    }
  }

  function Keys<T>(s: seq<T>, key: T -> nat): (ks: seq<nat>)
    ensures |ks| == |s| && forall i :: 0 <= i < |s| ==> ks[i] == key(s[i])
  {
    if s == [] then [] else [key(s[0])] + Keys(s[1..], key)
  }

  predicate Different(ks: seq<nat>) {
    forall i, j :: 0 <= i < j < |ks| ==> ks[i] != ks[j]
  }

  lemma {:induction false} DifferentCounts(ks: seq<nat>)
    ensures Different(ks) <==> forall k :: multiset(ks)[k] <= 1
    decreases |ks|
  {
    if ks != [] {
      var k0, rest := ks[0], ks[1..];
      DifferentCounts(rest);
      assert ks == [k0] + rest;
      assert multiset(ks) == multiset{k0} + multiset(rest);
      assert k0 in rest <==> multiset(rest)[k0] > 0;
      assert Different(ks) <==> Different(rest) && k0 !in rest by { DifferentHead(ks); }
      assert forall k :: k != k0 ==> multiset(ks)[k] == multiset(rest)[k];
      assert multiset(ks)[k0] == multiset(rest)[k0] + 1;
    }
  }

  lemma DifferentHead(ks: seq<nat>)
    requires ks != []
    ensures Different(ks) <==> Different(ks[1..]) && ks[0] !in ks[1..]
  {
    var rest := ks[1..];
    if Different(rest) && ks[0] !in rest {
      forall i, j | 0 <= i < j < |ks| ensures ks[i] != ks[j] {
        assert ks[j] == rest[j - 1] && rest[j - 1] in rest;
        assert i > 0 ==> ks[i] == rest[i - 1];
      }
    }
  }

  lemma {:induction false} InsertKeys<T>(x: T, s: seq<T>, key: T -> nat)
    ensures multiset(Keys(Insert(x, s, key), key)) == multiset([key(x)] + Keys(s, key))
    decreases |s|
  {
    if s == [] || key(x) <= key(s[0]) {
      assert ([x] + s)[1..] == s;
    } else {
      var rest := Insert(x, s[1..], key);
      InsertKeys(x, s[1..], key);
      assert ([s[0]] + rest)[1..] == rest;
      assert Keys(s, key) == [key(s[0])] + Keys(s[1..], key);
      assert multiset([key(s[0])] + Keys(rest, key)) == multiset{key(s[0])} + multiset(Keys(rest, key));
      assert multiset([key(x)] + Keys(s, key)) == multiset{key(x)} + multiset{key(s[0])} + multiset(Keys(s[1..], key));
    }
  }

  lemma {:induction false} SortKeys<T>(s: seq<T>, key: T -> nat)
    ensures multiset(Keys(SortBy(s, key), key)) == multiset(Keys(s, key))
    decreases |s|
  {
    if s != [] {
      SortKeys(s[1..], key);
      InsertKeys(s[0], SortBy(s[1..], key), key);
      assert Keys(s, key) == [key(s[0])] + Keys(s[1..], key);
    }
  }

  /** Sorting finds every duplicate: neighbours of the sorted sequence differ exactly when all keys do. */
  lemma SortedTwins<T>(s: seq<T>, key: T -> nat)
    ensures NoTwins(SortBy(s, key), key) <==> Unique(s, key)
  {
    var sorted := SortBy(s, key);
    SortKeeps(s, key);
    ClimbsExactly(sorted, key);
    SortKeys(s, key);
    DifferentCounts(Keys(s, key));
    DifferentCounts(Keys(sorted, key));
    UniqueKeys(s, key);
    UniqueKeys(sorted, key);
  }

  lemma UniqueKeys<T>(s: seq<T>, key: T -> nat)
    ensures Unique(s, key) <==> Different(Keys(s, key))
  {
  }

  /** Two places of a sequence hold x when its multiset counts x twice. */
  lemma Twice<T>(s: seq<T>, x: T)
    requires multiset(s)[x] >= 2
    ensures exists i, j :: 0 <= i < j < |s| && s[i] == x && s[j] == x
  {
    assert x in multiset(s);
    var i :| 0 <= i < |s| && s[i] == x;
    var rest := s[..i] + s[i + 1..];
    assert s == s[..i] + [x] + s[i + 1..];
    assert multiset(s) == multiset(s[..i]) + multiset{x} + multiset(s[i + 1..]);
    assert multiset(rest) == multiset(s[..i]) + multiset(s[i + 1..]);
    assert x in multiset(rest);
    var k :| 0 <= k < |rest| && rest[k] == x;
    var j := if k < i then k else k + 1;
    assert s[j] == x && j != i;
  }

  /** Reordering keeps keys unique. */
  lemma UniqueReordered<T>(a: seq<T>, b: seq<T>, key: T -> nat)
    requires multiset(a) == multiset(b) && Unique(a, key)
    ensures Unique(b, key)
  {
    forall i, j | 0 <= i < j < |b| ensures key(b[i]) != key(b[j]) {
      assert b[i] in multiset(b) && b[j] in multiset(b);
      assert b[i] in multiset(a) && b[j] in multiset(a);
      if b[i] == b[j] {
        assert b == b[..i] + [b[i]] + b[i + 1..j] + [b[j]] + b[j + 1..];
        Twice(a, b[i]);
      } else {
        var k :| 0 <= k < |a| && a[k] == b[i];
        var m :| 0 <= m < |a| && a[m] == b[j];
        assert key(a[k]) != key(a[m]);
      }
    }
  }

  function Id(x: u64): nat { x }

  /** A sorted copy without repetitions, and whether there were any. */
  method SortedUniqueCopy(input: seq<u64>) returns (copy: seq<u64>, hadDuplicates: bool)
    ensures Climbs(copy, Id) && forall x :: x in copy <==> x in input
    ensures hadDuplicates <==> !Unique(input, Id)
  {
    var sorted := SortBy(input, Id);
    SortKeeps(input, Id);
    SortedTwins(input, Id);
    hide SortBy, Unique, Climbs, NoTwins, Ascends;
    hadDuplicates, copy := false, [];
    var i := 0;
    NothingYet(sorted);
    while i < |sorted|
      invariant 0 <= i <= |sorted|
      invariant hadDuplicates <==> !NoTwins(sorted[..i], Id)
      invariant Climbs(copy, Id) && (copy == [] <==> i == 0) && (i > 0 ==> copy[|copy| - 1] == sorted[i - 1])
      invariant forall x :: x in copy <==> x in sorted[..i]
    {
      assert sorted[..i + 1] == sorted[..i] + [sorted[i]];
      TwinsStep(sorted, i);
      if i > 0 && sorted[i] == sorted[i - 1] {
        hadDuplicates := true;
        assert sorted[i] in sorted[..i];
      } else {
        Appended(copy, sorted[i]);
        copy := copy + [sorted[i]];
      }
      i := i + 1;
    }
    assert sorted[..i] == sorted;
  }

  lemma NothingYet(s: seq<u64>)
    ensures NoTwins(s[..0], Id) && Climbs<u64>([], Id)
  {
    assert s[..0] == [];
  }

  lemma TwinsStep(s: seq<u64>, i: nat)
    requires i < |s| && Ascends(s, Id)
    ensures NoTwins(s[..i + 1], Id) <==> NoTwins(s[..i], Id) && (i == 0 || s[i] != s[i - 1])
    ensures i > 0 ==> s[i - 1] <= s[i]
  {
    assert i > 0 ==> Id(s[i - 1]) <= Id(s[i]);
    if i > 0 && NoTwins(s[..i + 1], Id) {
      assert Id(s[..i + 1][i]) != Id(s[..i + 1][i - 1]);
      forall k | 0 < k < i ensures Id(s[..i][k]) != Id(s[..i][k - 1]) {
        assert Id(s[..i + 1][k]) != Id(s[..i + 1][k - 1]);
      }
    }
  }

  lemma Appended(s: seq<u64>, x: u64)
    requires Climbs(s, Id) && (s == [] || s[|s| - 1] < x)
    ensures Climbs(s + [x], Id)
  {
    var all := s + [x];
    forall i, j | 0 <= i < j < |all| ensures Id(all[i]) < Id(all[j]) {
      assert i < |s| - 1 ==> Id(s[i]) < Id(s[|s| - 1]);
    }
  }

  /** Whether two sorted sequences share an element, with one index into each. */
  method Intersects(a: seq<u64>, b: seq<u64>) returns (common: bool)
    requires Climbs(a, Id) && Climbs(b, Id)
    ensures common <==> exists x :: x in a && x in b
  {
    var i, j := 0, 0;
    while i < |a| && j < |b|
      invariant 0 <= i <= |a| && 0 <= j <= |b|
      invariant forall x :: x in a && x in b ==> x in a[i..] && x in b[j..]
      decreases |a| - i + |b| - j
    {
      if a[i] == b[j] {
        assert a[i] in a && b[j] in b;
        return true;
      }
      if a[i] < b[j] {
        assert a[i] !in b[j..] by { Below(a[i], b, j); }
        assert forall x :: x in a[i..] ==> x == a[i] || x in a[i + 1..];
        i := i + 1;
      } else {
        assert b[j] !in a[i..] by { Below(b[j], a, i); }
        assert forall x :: x in b[j..] ==> x == b[j] || x in b[j + 1..];
        j := j + 1;
      }
    }
    common := false;
  }

  lemma Below(x: u64, s: seq<u64>, i: nat)
    requires Climbs(s, Id) && i < |s| && x < s[i]
    ensures x !in s[i..]
  {
    assert forall k :: i < k < |s| ==> Id(s[i]) < Id(s[k]);
  }
}
