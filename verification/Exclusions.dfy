/** Why candidates were excluded: exact counts, and the lowest paths as samples, whatever order they came in. */
module Exclusions {
  import opened Bytes
  import opened Sorting
  import opened Ordered

  /** One excluded candidate. */
  datatype Exclusion = Exclusion(reason: u8, required: u64, available: u64, path: u64)

  /** What is kept of the candidates excluded for one reason. */
  datatype Tally = Tally(count: nat, sample: seq<u64>, required: u64, available: u64, example: u64)

  datatype Record = Record(entries: map<u8, Tally>, truncated: bool)

  const EMPTY := Record(map[], false)

  function Sampled(sample: seq<u64>, path: u64, maxSamples: nat): seq<u64> {
    if |sample| < maxSamples then SortBy(sample + [path], Id)
    else if sample != [] && path < sample[|sample| - 1] then SortBy(sample[|sample| - 1 := path], Id)
    else sample
  }

  function Counted(t: Tally, x: Exclusion, maxSamples: nat): Tally {
    var example := if x.path < t.example then t.(required := x.required, available := x.available, example := x.path) else t;
    example.(count := t.count + 1, sample := Sampled(t.sample, x.path, maxSamples))
  }

  /** Adds one exclusion; a reason beyond the bound is dropped and marks the record truncated. */
  function AddTo(r: Record, x: Exclusion, maxReasons: nat, maxSamples: nat): Record {
    if x.reason !in r.entries && |r.entries| >= maxReasons then r.(truncated := true)
    else
      var t := if x.reason in r.entries then r.entries[x.reason] else Tally(0, [], x.required, x.available, x.path);
      Record(r.entries[x.reason := Counted(t, x, maxSamples)], r.truncated || |t.sample| >= maxSamples)
  }

  function Recorded(xs: seq<Exclusion>, maxReasons: nat, maxSamples: nat): Record {
    if xs == [] then EMPTY else AddTo(Recorded(xs[..|xs| - 1], maxReasons, maxSamples), xs[|xs| - 1], maxReasons, maxSamples)
  }

  class ExclusionRecorder {
    const maxReasons: nat
    const maxSamples: nat
    var entries: map<u8, Tally>
    var truncated: bool

    ghost function Contents(): Record reads this { Record(entries, truncated) }

    constructor (maxReasons: nat, maxSamples: nat)
      ensures this.maxReasons == maxReasons && this.maxSamples == maxSamples && Contents() == EMPTY
    {
      this.maxReasons, this.maxSamples, entries, truncated := maxReasons, maxSamples, map[], false;
    }

    method Add(reason: u8, required: u64, available: u64, path: u64)
      modifies this
      ensures Contents() == AddTo(old(Contents()), Exclusion(reason, required, available, path), maxReasons, maxSamples)
    {
      var entry;
      if reason !in entries {
        if |entries| >= maxReasons {
          truncated := true;
          return;
        }
        entry := Tally(0, [], required, available, path);
      } else {
        entry := entries[reason];
        if path < entry.example {
          entry := entry.(example := path, required := required, available := available);
        }
      }
      entry := entry.(count := entry.count + 1);
      var sample: seq<u64> := entry.sample;
      if |sample| < maxSamples {
        sample := SortBy(sample + [path], Id);
      } else {
        truncated := true;
        if sample != [] && path < sample[|sample| - 1] {
          sample := SortBy(sample[|sample| - 1 := path], Id);
        }
      }
      entries := entries[reason := entry.(sample := sample)];
    }
  }

  // ---- the record as a summary of a set -------------------------------------------------------------

  function PathOf(x: Exclusion): nat { x.path }

  /** The paths excluded for a reason. */
  function PathsFor(xs: seq<Exclusion>, reason: u8): set<u64> {
    set x <- xs | x.reason == reason :: x.path
  }

  function ReasonsOf(xs: seq<Exclusion>): set<u8> {
    set x <- xs :: x.reason
  }

  /** The n lowest members of a set, ascending; all of them when there are fewer. */
  predicate IsLowest(sample: seq<u64>, s: set<u64>, n: nat) {
    && Increasing(sample)
    && |sample| == (if |s| < n then |s| else n)
    && (forall x <- sample :: x in s)
    && (forall x <- s, y <- sample :: x in sample || y < x)
  }

  /** A tally of the paths of one reason: their number, the lowest of them, and the values of the lowest. */
  predicate Summarizes(t: Tally, xs: seq<Exclusion>, reason: u8, maxSamples: nat) {
    var paths := PathsFor(xs, reason);
    && t.count == |paths|
    && IsLowest(t.sample, paths, maxSamples)
    && IsLeast(t.example, paths)
    && Exclusion(reason, t.required, t.available, t.example) in xs
  }

  predicate IsSummary(r: Record, xs: seq<Exclusion>, maxSamples: nat) {
    && r.entries.Keys == ReasonsOf(xs)
    && (forall reason <- r.entries :: Summarizes(r.entries[reason], xs, reason, maxSamples))
    && (r.truncated <==> Overfull(xs, maxSamples))
  }

  function ToSet(q: seq<u64>): set<u64> { set x <- q }

  lemma {:induction false} IncreasingCount(q: seq<u64>)
    requires Increasing(q)
    ensures |ToSet(q)| == |q|
    decreases |q|
  {
    if q != [] {
      var rest := q[..|q| - 1];
      IncreasingCount(rest);
      assert q[|q| - 1] !in rest;
      assert ToSet(q) == ToSet(rest) + {q[|q| - 1]};
    }
  }

  /** There is only one such sample. */
  lemma LowestUnique(a: seq<u64>, b: seq<u64>, s: set<u64>, n: nat)
    requires IsLowest(a, s, n) && IsLowest(b, s, n)
    ensures a == b
  {
    IncreasingCount(a);
    IncreasingCount(b);
    var left, right := ToSet(a) - ToSet(b), ToSet(b) - ToSet(a);
    assert |ToSet(a)| == |left| + |ToSet(a) * ToSet(b)| by { assert ToSet(a) == left + ToSet(a) * ToSet(b); }
    assert |ToSet(b)| == |right| + |ToSet(a) * ToSet(b)| by { assert ToSet(b) == right + ToSet(a) * ToSet(b); }
    assert left == {} by {
      if left != {} {
        var x := Member(left);
        var y := Member(right);
        assert false;
      }
    }
    assert right == {} by { assert |right| == 0; }
    forall x ensures x in a <==> x in b {
      assert x in ToSet(a) <==> x in a;
      assert x in ToSet(b) <==> x in b;
    }
    IncreasingUnique(a, b);
  }

  lemma ClimbsIncreases(q: seq<u64>)
    ensures Climbs(q, Id) <==> Increasing(q)
  {
    if Climbs(q, Id) {
      forall i, j | 0 <= i < j < |q| ensures q[i] < q[j] { assert Id(q[i]) < Id(q[j]); }
    }
  }

  lemma SortIncreases(q: seq<u64>)
    requires Unique(q, Id)
    ensures Increasing(SortBy(q, Id)) && |SortBy(q, Id)| == |q| && forall x :: x in SortBy(q, Id) <==> x in q
  {
    hide SortBy, Unique;
    SortKeeps(q, Id);
    SortedTwins(q, Id);
    ClimbsExactly(SortBy(q, Id), Id);
    ClimbsIncreases(SortBy(q, Id));
  }

  lemma IncreasingIsUnique(q: seq<u64>, i: nat, x: u64)
    requires Increasing(q) && x !in q
    ensures Unique(q + [x], Id)
    ensures i < |q| ==> Unique(q[i := x], Id)
  {
  }

  /** One more path keeps the sample the lowest. */
  lemma SampledKeeps(sample: seq<u64>, s: set<u64>, n: nat, path: u64)
    requires IsLowest(sample, s, n) && path !in s
    ensures IsLowest(Sampled(sample, path, n), s + {path}, n)
  {
    hide SortBy, Unique;
    assert |s + {path}| == |s| + 1;
    if |sample| < n {
      IncreasingIsUnique(sample, 0, path);
      SortIncreases(sample + [path]);
      IncreasingCount(sample);
      AllSampled(sample, s);
    } else if sample != [] && path < sample[|sample| - 1] {
      var last := |sample| - 1;
      IncreasingIsUnique(sample, last, path);
      SortIncreases(sample[last := path]);
      var next := Sampled(sample, path, n);
      assert forall y :: y in next <==> y == path || (y in sample && y != sample[last]) by { Replaced(sample, path); }
      forall x, y | x in s + {path} && y in next ensures x in next || y < x {
        if x !in next {
          assert sample[last] in sample && (x in sample ==> x == sample[last]);
          if y != path {
            assert y < sample[last] by { BeforeLast(sample, y); }
          }
        }
      }
    } else {
      forall x, y | x in s + {path} && y in sample ensures x in sample || y < x {
        if x == path { BeforeLast(sample, y); }
      }
    }
  }

  lemma BeforeLast(q: seq<u64>, y: u64)
    requires Increasing(q) && y in q
    ensures y <= q[|q| - 1] && (y != q[|q| - 1] ==> y < q[|q| - 1])
  {
  }

  lemma Replaced(q: seq<u64>, x: u64)
    requires Increasing(q) && q != [] && x !in q
    ensures forall y :: y in q[|q| - 1 := x] <==> y == x || (y in q && y != q[|q| - 1])
  {
    var p := q[|q| - 1 := x];
    assert p[|q| - 1] == x;
    forall y | y in q && y != q[|q| - 1] ensures y in p {
      var i :| 0 <= i < |q| && q[i] == y;
      assert p[i] == y;
    }
  }

  lemma AllSampled(sample: seq<u64>, s: set<u64>)
    requires Increasing(sample) && |sample| == |s| && forall x <- sample :: x in s
    ensures forall x <- s :: x in sample
  {
    IncreasingCount(sample);
    SubsetSame(ToSet(sample), s);
  }

  lemma SubsetSame(a: set<u64>, b: set<u64>)
    requires a <= b && |a| == |b|
    ensures a == b
  {
    assert |b - a| == |b| - |a|;
  }

  // ---- every recorder ends with the same summary ------------------------------------------------------

  lemma ReasonsSnoc(xs: seq<Exclusion>, x: Exclusion)
    ensures ReasonsOf(xs + [x]) == ReasonsOf(xs) + {x.reason}
    ensures forall reason: u8 :: PathsFor(xs + [x], reason) == PathsFor(xs, reason) + if x.reason == reason then {x.path} else {}
  {
    assert forall y :: y in xs + [x] <==> y in xs || y == x;
  }

  lemma NewPath(xs: seq<Exclusion>, x: Exclusion)
    requires Unique(xs + [x], PathOf)
    ensures Unique(xs, PathOf) && forall reason: u8 :: x.path !in PathsFor(xs, reason)
  {
    var all := xs + [x];
    forall i, j | 0 <= i < j < |xs| ensures PathOf(xs[i]) != PathOf(xs[j]) { assert all[i] == xs[i] && all[j] == xs[j]; }
    forall y | y in xs ensures y.path != x.path {
      var i :| 0 <= i < |xs| && xs[i] == y;
      assert PathOf(all[i]) != PathOf(all[|xs|]);
    }
  }

  /** Counting one more path of a reason. */
  lemma CountedSummarizes(t: Tally, xs: seq<Exclusion>, x: Exclusion, maxSamples: nat)
    requires Summarizes(t, xs, x.reason, maxSamples) && Unique(xs + [x], PathOf)
    ensures Summarizes(Counted(t, x, maxSamples), xs + [x], x.reason, maxSamples)
  {
    hide Unique, IsLowest, Sampled;
    ReasonsSnoc(xs, x);
    NewPath(xs, x);
    SampledKeeps(t.sample, PathsFor(xs, x.reason), maxSamples, x.path);
    assert |PathsFor(xs, x.reason) + {x.path}| == |PathsFor(xs, x.reason)| + 1;
    assert x in xs + [x];
  }

  lemma FirstSummarizes(xs: seq<Exclusion>, x: Exclusion, maxSamples: nat)
    requires x.reason !in ReasonsOf(xs)
    ensures Summarizes(Counted(Tally(0, [], x.required, x.available, x.path), x, maxSamples), xs + [x], x.reason, maxSamples)
    ensures PathsFor(xs + [x], x.reason) == {x.path}
  {
    hide SortBy;
    ReasonsSnoc(xs, x);
    assert PathsFor(xs, x.reason) == {};
    assert PathsFor(xs + [x], x.reason) == {x.path};
    assert [] + [x.path] == [x.path];
    SortIncreases([x.path]);
    assert x in xs + [x];
  }

  lemma OthersSummarize(t: Tally, xs: seq<Exclusion>, x: Exclusion, reason: u8, maxSamples: nat)
    requires Summarizes(t, xs, reason, maxSamples) && reason != x.reason
    ensures Summarizes(t, xs + [x], reason, maxSamples)
  {
    hide IsLowest;
    ReasonsSnoc(xs, x);
    assert PathsFor(xs + [x], reason) == PathsFor(xs, reason);
  }

  /** A reason not met yet finds room. */
  lemma RoomForReason(r: Record, xs: seq<Exclusion>, x: Exclusion, maxReasons: nat)
    requires r.entries.Keys == ReasonsOf(xs) && |ReasonsOf(xs + [x])| <= maxReasons
    ensures x.reason !in r.entries ==> |r.entries| < maxReasons
  {
    ReasonsSnoc(xs, x);
    hide ReasonsOf;
    if x.reason !in r.entries {
      assert |ReasonsOf(xs) + {x.reason}| == |ReasonsOf(xs)| + 1;
      assert |r.entries| == |r.entries.Keys|;
    }
  }

  /** The tally an exclusion joins. */
  function JoinedTally(r: Record, x: Exclusion): Tally {
    if x.reason in r.entries then r.entries[x.reason] else Tally(0, [], x.required, x.available, x.path)
  }

  lemma AddUnfolds(r: Record, xs: seq<Exclusion>, x: Exclusion, maxReasons: nat, maxSamples: nat)
    requires r.entries.Keys == ReasonsOf(xs) && |ReasonsOf(xs + [x])| <= maxReasons
    ensures AddTo(r, x, maxReasons, maxSamples) ==
              Record(r.entries[x.reason := Counted(JoinedTally(r, x), x, maxSamples)],
                     r.truncated || |JoinedTally(r, x).sample| >= maxSamples)
  {
    hide Counted, ReasonsOf;
    RoomForReason(r, xs, x, maxReasons);
  }

  lemma AddKeepsSummary(r: Record, xs: seq<Exclusion>, x: Exclusion, maxReasons: nat, maxSamples: nat)
    requires IsSummary(r, xs, maxSamples) && Unique(xs + [x], PathOf)
    requires |ReasonsOf(xs + [x])| <= maxReasons
    ensures IsSummary(AddTo(r, x, maxReasons, maxSamples), xs + [x], maxSamples)
  {
    hide Summarizes, Counted, Unique, AddTo, PathsFor, ReasonsOf, JoinedTally;
    var ys := xs + [x];
    var next := AddTo(r, x, maxReasons, maxSamples);
    AddUnfolds(r, xs, x, maxReasons, maxSamples);
    assert next.entries.Keys == ReasonsOf(ys) by { ReasonsSnoc(xs, x); }
    forall reason | reason in next.entries ensures Summarizes(next.entries[reason], ys, reason, maxSamples) {
      TallyStep(r, xs, x, reason, maxReasons, maxSamples);
    }
    TruncatedStep(r, xs, x, maxReasons, maxSamples);
  }

  lemma TallyStep(r: Record, xs: seq<Exclusion>, x: Exclusion, reason: u8, maxReasons: nat, maxSamples: nat)
    requires IsSummary(r, xs, maxSamples) && Unique(xs + [x], PathOf)
    requires |ReasonsOf(xs + [x])| <= maxReasons
    requires reason == x.reason || reason in r.entries
    ensures reason in AddTo(r, x, maxReasons, maxSamples).entries
    ensures Summarizes(AddTo(r, x, maxReasons, maxSamples).entries[reason], xs + [x], reason, maxSamples)
  {
    hide Summarizes, Counted, Unique, AddTo, PathsFor, ReasonsOf;
    AddUnfolds(r, xs, x, maxReasons, maxSamples);
    if reason != x.reason {
      OthersSummarize(r.entries[reason], xs, x, reason, maxSamples);
    } else if x.reason in r.entries {
      CountedSummarizes(r.entries[x.reason], xs, x, maxSamples);
    } else {
      FirstSummarizes(xs, x, maxSamples);
    }
  }

  lemma JoinedFull(r: Record, xs: seq<Exclusion>, x: Exclusion, maxSamples: nat)
    requires IsSummary(r, xs, maxSamples) && Unique(xs + [x], PathOf)
    ensures |JoinedTally(r, x).sample| >= maxSamples <==> |PathsFor(xs + [x], x.reason)| > maxSamples
    ensures |PathsFor(xs + [x], x.reason)| == |PathsFor(xs, x.reason)| + 1
  {
    ReasonsSnoc(xs, x);
    NewPath(xs, x);
    hide Unique;
    var before, after := PathsFor(xs, x.reason), PathsFor(xs + [x], x.reason);
    assert after == before + {x.path} && |after| == |before| + 1;
    if x.reason in r.entries {
      assert Summarizes(r.entries[x.reason], xs, x.reason, maxSamples);
    } else {
      assert before == {};
    }
  }

  /** Some reason has more paths than a sample holds. */
  predicate Overfull(xs: seq<Exclusion>, maxSamples: nat) {
    exists reason <- ReasonsOf(xs) :: |PathsFor(xs, reason)| > maxSamples
  }

  lemma SameSize(xs: seq<Exclusion>, x: Exclusion, reason: u8)
    requires reason != x.reason
    ensures PathsFor(xs + [x], reason) == PathsFor(xs, reason)
    ensures reason in ReasonsOf(xs + [x]) <==> reason in ReasonsOf(xs)
  {
    ReasonsSnoc(xs, x);
  }

  lemma OverfullStep(xs: seq<Exclusion>, x: Exclusion, maxSamples: nat)
    requires |PathsFor(xs + [x], x.reason)| == |PathsFor(xs, x.reason)| + 1
    ensures Overfull(xs + [x], maxSamples) <==> Overfull(xs, maxSamples) || |PathsFor(xs + [x], x.reason)| > maxSamples
  {
    hide PathsFor, ReasonsOf;
    var ys := xs + [x];
    assert x.reason in ReasonsOf(ys) by { ReasonsSnoc(xs, x); }
    if Overfull(xs, maxSamples) {
      var reason :| reason in ReasonsOf(xs) && |PathsFor(xs, reason)| > maxSamples;
      if reason != x.reason { SameSize(xs, x, reason); }
    }
    if Overfull(ys, maxSamples) {
      var reason :| reason in ReasonsOf(ys) && |PathsFor(ys, reason)| > maxSamples;
      if reason != x.reason { SameSize(xs, x, reason); }
    }
  }

  lemma TruncatedStep(r: Record, xs: seq<Exclusion>, x: Exclusion, maxReasons: nat, maxSamples: nat)
    requires IsSummary(r, xs, maxSamples) && Unique(xs + [x], PathOf)
    requires |ReasonsOf(xs + [x])| <= maxReasons
    ensures AddTo(r, x, maxReasons, maxSamples).truncated <==> Overfull(xs + [x], maxSamples)
  {
    hide Counted, Unique, AddTo, PathsFor, ReasonsOf, JoinedTally, Summarizes, Overfull;
    JoinedFull(r, xs, x, maxSamples);
    AddUnfolds(r, xs, x, maxReasons, maxSamples);
    OverfullStep(xs, x, maxSamples);
  }

  lemma FewerReasons(xs: seq<Exclusion>, maxReasons: nat)
    requires xs != [] && |ReasonsOf(xs)| <= maxReasons
    ensures |ReasonsOf(xs[..|xs| - 1])| <= maxReasons
  {
    var init, x := xs[..|xs| - 1], xs[|xs| - 1];
    assert xs == init + [x];
    ReasonsSnoc(init, x);
    SubsetFewer(ReasonsOf(init), ReasonsOf(xs));
  }

  lemma SubsetFewer(a: set<u8>, b: set<u8>)
    requires a <= b
    ensures |a| <= |b|
  {
    assert |b - a| == |b| - |a|;
  }

  /** Whatever order paths come in, the record is the exact summary of the set, while all reasons fit. */
  lemma {:induction false} RecordedIsSummary(xs: seq<Exclusion>, maxReasons: nat, maxSamples: nat)
    requires Unique(xs, PathOf) && |ReasonsOf(xs)| <= maxReasons
    ensures IsSummary(Recorded(xs, maxReasons, maxSamples), xs, maxSamples)
    decreases |xs|
  {
    hide AddTo, Unique, IsSummary;
    if xs == [] {
      EmptySummary(maxSamples);
    } else {
      var init, x := xs[..|xs| - 1], xs[|xs| - 1];
      assert xs == init + [x];
      NewPath(init, x);
      FewerReasons(xs, maxReasons);
      RecordedIsSummary(init, maxReasons, maxSamples);
      AddKeepsSummary(Recorded(init, maxReasons, maxSamples), init, x, maxReasons, maxSamples);
    }
  }

  lemma EmptySummary(maxSamples: nat)
    ensures IsSummary(EMPTY, [], maxSamples)
  {
  }

  lemma OneTally(t: Tally, u: Tally, xs: seq<Exclusion>, ys: seq<Exclusion>, reason: u8, maxSamples: nat)
    requires Summarizes(t, xs, reason, maxSamples) && Summarizes(u, ys, reason, maxSamples)
    requires (forall x :: x in xs <==> x in ys) && Unique(xs, PathOf)
    ensures t == u
  {
    hide IsLowest;
    assert PathsFor(xs, reason) == PathsFor(ys, reason);
    LowestUnique(t.sample, u.sample, PathsFor(xs, reason), maxSamples);
    assert t.example == u.example;
    var a, b := Exclusion(reason, t.required, t.available, t.example), Exclusion(reason, u.required, u.available, u.example);
    assert a in xs && b in xs;
    var i :| 0 <= i < |xs| && xs[i] == a;
    var j :| 0 <= j < |xs| && xs[j] == b;
    assert PathOf(xs[i]) == PathOf(xs[j]);
    assert i == j;
  }

  /** Two recorders that saw the same exclusions in any orders hold the same record. */
  lemma SameRecord(xs: seq<Exclusion>, ys: seq<Exclusion>, maxReasons: nat, maxSamples: nat)
    requires Unique(xs, PathOf) && Unique(ys, PathOf) && forall x :: x in xs <==> x in ys
    requires |ReasonsOf(xs)| <= maxReasons
    ensures Recorded(xs, maxReasons, maxSamples) == Recorded(ys, maxReasons, maxSamples)
  {
    hide Recorded, Summarizes, Unique;
    assert ReasonsOf(xs) == ReasonsOf(ys);
    RecordedIsSummary(xs, maxReasons, maxSamples);
    RecordedIsSummary(ys, maxReasons, maxSamples);
    var r, q := Recorded(xs, maxReasons, maxSamples), Recorded(ys, maxReasons, maxSamples);
    forall reason | reason in r.entries ensures r.entries[reason] == q.entries[reason] {
      OneTally(r.entries[reason], q.entries[reason], xs, ys, reason, maxSamples);
    }
    assert r.entries == q.entries;
    assert Overfull(xs, maxSamples) == Overfull(ys, maxSamples) by {
      assert forall reason: u8 :: PathsFor(xs, reason) == PathsFor(ys, reason);
    }
  }

  // ---- exactly when the order shows --------------------------------------------------------------------

  /** The recorder has room for every reason that occurs, or for none at all. */
  predicate Fits(xs: seq<Exclusion>, maxReasons: nat) {
    maxReasons == 0 || |ReasonsOf(xs)| <= maxReasons
  }

  lemma {:induction false} NothingKept(xs: seq<Exclusion>, maxSamples: nat)
    ensures Recorded(xs, 0, maxSamples) == Record(map[], xs != [])
    decreases |xs|
  {
    hide Counted;
    if xs != [] { NothingKept(xs[..|xs| - 1], maxSamples); }
  }

  lemma {:induction false} KeptReasons(xs: seq<Exclusion>, maxReasons: nat, maxSamples: nat)
    ensures |Recorded(xs, maxReasons, maxSamples).entries| <= maxReasons
    ensures xs != [] && maxReasons > 0 ==> xs[0].reason in Recorded(xs, maxReasons, maxSamples).entries
    decreases |xs|
  {
    hide Counted;
    if xs != [] {
      var init, x := xs[..|xs| - 1], xs[|xs| - 1];
      var before := Recorded(init, maxReasons, maxSamples);
      KeptReasons(init, maxReasons, maxSamples);
      var after := AddTo(before, x, maxReasons, maxSamples);
      if x.reason in before.entries {
        assert after.entries.Keys == before.entries.Keys && |after.entries| == |after.entries.Keys| == |before.entries.Keys|;
      } else if |before.entries| < maxReasons {
        assert after.entries.Keys == before.entries.Keys + {x.reason} && |after.entries| == |after.entries.Keys|;
      }
    }
  }

  /** Some reason that occurs is not kept when there are more than the recorder has room for. */
  lemma SomeReasonDropped(xs: seq<Exclusion>, maxReasons: nat, maxSamples: nat) returns (i: nat)
    requires !Fits(xs, maxReasons)
    ensures i < |xs| && xs[i].reason !in Recorded(xs, maxReasons, maxSamples).entries
  {
    hide Recorded;
    KeptReasons(xs, maxReasons, maxSamples);
    var kept := Recorded(xs, maxReasons, maxSamples).entries;
    assert |kept.Keys| == |kept| <= maxReasons;
    if ReasonsOf(xs) <= kept.Keys { SubsetFewer(ReasonsOf(xs), kept.Keys); }
    var reason :| reason in ReasonsOf(xs) && reason !in kept;
    i :| 0 <= i < |xs| && xs[i].reason == reason;
  }

  /** A list with one of its elements moved to the front. */
  function Fronted<T>(xs: seq<T>, i: nat): (ys: seq<T>)
    requires i < |xs|
    ensures |ys| == |xs| && ys[0] == xs[i]
  {
    [xs[i]] + xs[..i] + xs[i + 1..]
  }

  lemma FrontedParts<T>(xs: seq<T>, i: nat)
    requires i < |xs|
    ensures xs == xs[..i] + ([xs[i]] + xs[i + 1..]) && Fronted(xs, i) == [xs[i]] + (xs[..i] + xs[i + 1..])
  {
  }

  lemma FrontedSame<T>(xs: seq<T>, i: nat)
    requires i < |xs|
    ensures multiset(Fronted(xs, i)) == multiset(xs)
  {
    assert xs == xs[..i] + [xs[i]] + xs[i + 1..];
  }

  /** The record depends on the order of the exclusions exactly when their reasons outnumber the room there is. */
  lemma RecordOrderExactly(xs: seq<Exclusion>, maxReasons: nat, maxSamples: nat)
    requires Unique(xs, PathOf)
    ensures (forall ys: seq<Exclusion> | multiset(ys) == multiset(xs) ::
               Recorded(ys, maxReasons, maxSamples) == Recorded(xs, maxReasons, maxSamples)) <==> Fits(xs, maxReasons)
  {
    hide Recorded, Unique, ReasonsOf;
    if Fits(xs, maxReasons) {
      forall ys: seq<Exclusion> | multiset(ys) == multiset(xs)
        ensures Recorded(ys, maxReasons, maxSamples) == Recorded(xs, maxReasons, maxSamples)
      {
        FittingRecord(xs, ys, maxReasons, maxSamples);
      }
    } else {
      var i := SomeReasonDropped(xs, maxReasons, maxSamples);
      var ys := Fronted(xs, i);
      FrontedSame(xs, i);
      KeptReasons(ys, maxReasons, maxSamples);
      assert Recorded(ys, maxReasons, maxSamples) != Recorded(xs, maxReasons, maxSamples);
    }
  }

  lemma FittingRecord(xs: seq<Exclusion>, ys: seq<Exclusion>, maxReasons: nat, maxSamples: nat)
    requires Unique(xs, PathOf) && multiset(ys) == multiset(xs) && Fits(xs, maxReasons)
    ensures Recorded(ys, maxReasons, maxSamples) == Recorded(xs, maxReasons, maxSamples)
  {
    hide Recorded, Unique, ReasonsOf;
    assert |xs| == |multiset(xs)| == |multiset(ys)| == |ys|;
    if maxReasons == 0 {
      NothingKept(xs, maxSamples);
      NothingKept(ys, maxSamples);
    } else {
      UniqueReordered(xs, ys, PathOf);
      assert forall x :: x in xs <==> x in multiset(xs);
      assert forall x :: x in ys <==> x in multiset(ys);
      SameRecord(xs, ys, maxReasons, maxSamples);
    }
  }
}
