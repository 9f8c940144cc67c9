/** Dropping the oldest finished attempts once the retained table exceeds its bound. */
module Reaping {
  import opened Bytes

  /** The attempts still known, and their insertion order. */
  datatype Retained<T> = Retained(table: map<u64, T>, order: seq<u64>)

  /** The order lists every known attempt exactly once. */
  ghost predicate Listed<T>(r: Retained<T>) {
    && (forall a :: a in r.order <==> a in r.table)
    && (forall i, j :: 0 <= i < j < |r.order| ==> r.order[i] != r.order[j])
  }

  /**
   Takes the oldest attempt: forgets it when it is finished, sends it to the back when it is in
   flight. Gives up after one whole turn without progress.
   */
  function Reap<T>(r: Retained<T>, inFlight: set<u64>, limit: nat, scanned: nat): Retained<T>
    decreases |r.order|, if scanned < |r.order| then |r.order| - scanned else 0
  {
    if |r.table| <= limit || r.order == [] || scanned >= |r.order| then r
    else
      var oldest, rest := r.order[0], r.order[1..];
      if oldest !in r.table then Reap(r.(order := rest), inFlight, limit, scanned + 1)
      else if oldest in inFlight then Reap(r.(order := rest + [oldest]), inFlight, limit, scanned + 1)
      else Reap(Retained(r.table - {oldest}, rest), inFlight, limit, 0)
  }

  /** The attempts of the last `scanned` places are in flight: what a scan without progress has seen. */
  ghost predicate Seen<T>(r: Retained<T>, inFlight: set<u64>, scanned: nat) {
    scanned <= |r.order| && forall i :: |r.order| - scanned <= i < |r.order| ==> r.order[i] in inFlight
  }

  lemma RotateKeeps<T>(r: Retained<T>, inFlight: set<u64>, scanned: nat)
    requires Listed(r) && Seen(r, inFlight, scanned) && scanned < |r.order| && r.order[0] in inFlight
    ensures var next := r.(order := r.order[1..] + [r.order[0]]); Listed(next) && Seen(next, inFlight, scanned + 1)
  {
    var next := r.(order := r.order[1..] + [r.order[0]]);
    assert forall a :: a in r.order <==> a == r.order[0] || a in r.order[1..];
    forall i, j | 0 <= i < j < |next.order| ensures next.order[i] != next.order[j] {
      assert next.order[i] == r.order[i + 1];
      assert j < |r.order| - 1 ==> next.order[j] == r.order[j + 1];
    }
    forall i | |next.order| - (scanned + 1) <= i < |next.order| ensures next.order[i] in inFlight {
      assert i < |r.order| - 1 ==> next.order[i] == r.order[i + 1];
    }
  }

  lemma ForgetKeeps<T>(r: Retained<T>)
    requires Listed(r) && r.order != []
    ensures Listed(Retained(r.table - {r.order[0]}, r.order[1..]))
  {
    assert forall a :: a in r.order <==> a == r.order[0] || a in r.order[1..];
  }

  /** r' keeps every attempt in flight and changes nothing about those it keeps. */
  ghost predicate Shrinks<T>(r: Retained<T>, r': Retained<T>, inFlight: set<u64>) {
    && (forall a <- r'.table :: a in r.table && r'.table[a] == r.table[a])
    && (forall a <- r.table :: a in r'.table || a !in inFlight)
  }

  lemma ShrinksStep<T>(r: Retained<T>, r': Retained<T>, inFlight: set<u64>)
    requires r'.table == r.table || (r.order != [] && r.order[0] !in inFlight && r'.table == r.table - {r.order[0]})
    ensures Shrinks(r, r', inFlight)
  {
  }

  lemma ShrinksOn<T>(r: Retained<T>, r1: Retained<T>, r': Retained<T>, inFlight: set<u64>)
    requires Shrinks(r, r1, inFlight) && Shrinks(r1, r', inFlight)
    ensures Shrinks(r, r', inFlight)
  {
  }

  lemma WholeTurn<T>(r: Retained<T>, inFlight: set<u64>, scanned: nat)
    requires Listed(r) && Seen(r, inFlight, scanned) && (r.order == [] || scanned >= |r.order|)
    ensures forall a <- r.table :: a in inFlight
  {
    forall a | a in r.table ensures a in inFlight {
      assert a in r.order;
    }
  }

  /**
   Reaping keeps every attempt in flight, changes nothing about those it keeps, leaves the order a
   duplicate-free listing, and stops within the limit or with nothing left but attempts in flight.
   */
  lemma {:induction false} ReapKeeps<T>(r: Retained<T>, inFlight: set<u64>, limit: nat, scanned: nat)
    requires Listed(r) && Seen(r, inFlight, scanned)
    ensures var r' := Reap(r, inFlight, limit, scanned);
            && Listed(r') && Shrinks(r, r', inFlight)
            && (|r'.table| <= limit || forall a <- r'.table :: a in inFlight)
            && (|r.table| <= limit ==> r' == r)
    decreases |r.order|, if scanned < |r.order| then |r.order| - scanned else 0
  {
    hide Listed, Seen, Shrinks;
    ShrinksStep(r, r, inFlight);
    if |r.table| <= limit {
    } else if r.order == [] || scanned >= |r.order| {
      WholeTurn(r, inFlight, scanned);
    } else {
      var oldest, rest := r.order[0], r.order[1..];
      assert oldest in r.table by { Front(r); }
      if oldest in inFlight {
        var r1 := r.(order := rest + [oldest]);
        RotateKeeps(r, inFlight, scanned);
        ReapKeeps(r1, inFlight, limit, scanned + 1);
        ShrinksStep(r, r1, inFlight);
        ShrinksOn(r, r1, Reap(r1, inFlight, limit, scanned + 1), inFlight);
      } else {
        var r1 := Retained(r.table - {oldest}, rest);
        ForgetKeeps(r);
        NothingSeen(r1, inFlight);
        ReapKeeps(r1, inFlight, limit, 0);
        ShrinksStep(r, r1, inFlight);
        ShrinksOn(r, r1, Reap(r1, inFlight, limit, 0), inFlight);
      }
    }
  }

  lemma Front<T>(r: Retained<T>)
    requires Listed(r) && r.order != []
    ensures r.order[0] in r.table
  {
  }

  lemma NothingSeen<T>(r: Retained<T>, inFlight: set<u64>)
    ensures Seen(r, inFlight, 0)
  {
  }

  /** The loop over the attempt order. */
  method ReapRetainedSlots<T>(slots: map<u64, T>, slotOrder: seq<u64>, inFlight: set<u64>, limit: nat)
    returns (table: map<u64, T>, order: seq<u64>)
    ensures Retained(table, order) == Reap(Retained(slots, slotOrder), inFlight, limit, 0)
  {
    table, order := slots, slotOrder;
    var scanned: nat := 0;
    while |table| > limit && order != [] && scanned < |order|
      invariant Reap(Retained(table, order), inFlight, limit, scanned) == Reap(Retained(slots, slotOrder), inFlight, limit, 0)
      decreases |order|, if scanned < |order| then |order| - scanned else 0
    {
      var oldest := order[0];
      order := order[1..];
      scanned := scanned + 1;
      if oldest !in table { continue; }
      if oldest in inFlight {
        order := order + [oldest];
        continue;
      }
      table := table - {oldest};
      scanned := 0;
    }
  }
}
