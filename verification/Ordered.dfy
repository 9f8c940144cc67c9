/** Finite sets of numbers in ascending order: the iteration order of an ordered map's keys. */
module Ordered {
  import opened Bytes

  lemma Member(s: set<u64>) returns (x: u64)
    requires s != {}
    ensures x in s
  {
    assert (forall y: u64 :: y !in s) ==> s == {};
    x :| x in s;
  }

  lemma {:induction false} HasLeast(s: set<u64>)
    requires s != {}
    ensures exists x :: IsLeast(x, s)
    decreases |s|
  {
    var x := Member(s);
    var rest := s - {x};
    if rest == {} {
      forall y | y in s ensures x <= y { assert y == x || y in rest; }
      assert IsLeast(x, s);
    } else {
      HasLeast(rest);
      var z :| IsLeast(z, rest);
      var least := if x < z then x else z;
      forall y | y in s ensures least <= y { assert y == x || y in rest; }
      assert IsLeast(least, s);
    }
  }

  predicate IsLeast(x: u64, s: set<u64>) {
    x in s && forall y :: y in s ==> x <= y
  }

  function Least(s: set<u64>): (x: u64)
    requires s != {}
    ensures IsLeast(x, s)
  {
    HasLeast(s);
    var x :| IsLeast(x, s);
    x
  }

  predicate Increasing(q: seq<u64>) {
    forall i, j :: 0 <= i < j < |q| ==> q[i] < q[j]
  }

  lemma IncreasingFrom(x: u64, rest: seq<u64>)
    requires Increasing(rest) && forall y <- rest :: x < y
    ensures Increasing([x] + rest)
  {
    var p := [x] + rest;
    forall i, j | 0 <= i < j < |p| ensures p[i] < p[j] {
      assert p[j] == rest[j - 1] && p[j] in rest;
    }
  }

  lemma Prepended(x: u64, s: set<u64>, rest: seq<u64>)
    requires IsLeast(x, s) && Increasing(rest) && |rest| == |s - {x}|
    requires forall y :: y in rest <==> y in s - {x}
    ensures forall y :: y in [x] + rest <==> y in s
    ensures Increasing([x] + rest) && |[x] + rest| == |s|
  {
    IncreasingFrom(x, rest);
    assert s == (s - {x}) + {x};
  }

  function Ascending(s: set<u64>): (q: seq<u64>)
    ensures forall x :: x in q <==> x in s
    ensures Increasing(q)
    ensures |q| == |s|
    decreases |s|
  {
    if s == {} then [] else
      var x := Least(s);
      var rest := Ascending(s - {x});
      Prepended(x, s, rest);
      [x] + rest
  }

  lemma {:induction false} Fewer(a: set<u64>, b: set<u64>)
    requires a <= b
    ensures |a| <= |b|
    decreases |a|
  {
    if a != {} {
      var x := Member(a);
      Fewer(a - {x}, b - {x});
    }
  }

  lemma Inhabited(q: seq<u64>)
    ensures q == [] || exists x :: x in q
  {
    if q != [] { assert q[0] in q; }
  }

  /** An increasing sequence is determined by its elements. */
  lemma {:induction false} IncreasingUnique(a: seq<u64>, b: seq<u64>)
    requires Increasing(a) && Increasing(b) && forall x :: x in a <==> x in b
    ensures a == b
    decreases |a|
  {
    if a == [] {
      Inhabited(b);
    } else {
      assert a[0] in a && a[0] in b;
      assert b[0] in b && b[0] in a;
      assert a[0] == b[0];
      forall x ensures x in a[1..] <==> x in b[1..] {
        assert x in a <==> x == a[0] || x in a[1..];
        assert x in b <==> x == b[0] || x in b[1..];
      }
      IncreasingUnique(a[1..], b[1..]);
      assert a == [a[0]] + a[1..] && b == [b[0]] + b[1..];
    }
  }
}
