/** The bounded window of recently seen keys (src/indexer/storage/dedupe.rs). */
module IndexerDedupe {

  /** The last `n` elements. */
  function LastN<T>(s: seq<T>, n: nat): (last: seq<T>)
    ensures |last| == if |s| <= n then |s| else n
  {
    if |s| <= n then s else s[|s| - n..]
  }

  predicate Distinct<T(==)>(s: seq<T>) {
    forall i, j :: 0 <= i < j < |s| ==> s[i] != s[j]
  }

  /** The window after `key` is seen, and whether it was new to the window. */
  function Observe(window: seq<string>, capacity: nat, key: string): (seq<string>, bool) {
    if key in window then (window, false) else (LastN(window + [key], capacity), true)
  }

  /** The window after a list of keys. */
  function ObserveAll(window: seq<string>, capacity: nat, keys: seq<string>): seq<string>
    decreases keys
  {
    if keys == [] then window else ObserveAll(Observe(window, capacity, keys[0]).0, capacity, keys[1..])
  }

  /** The keys that were new when they were seen. */
  function Accepted(window: seq<string>, capacity: nat, keys: seq<string>): seq<string>
    decreases keys
  {
    if keys == [] then []
    else
      var (next, isNew) := Observe(window, capacity, keys[0]);
      (if isNew then [keys[0]] else []) + Accepted(next, capacity, keys[1..])
  }

  lemma LastOfLast<T>(a: seq<T>, x: T, n: nat)
    ensures LastN(LastN(a, n) + [x], n) == LastN(a + [x], n)
  {
  }

  /** The window is exactly the last `capacity` accepted keys, so a key is
      refused exactly when it is among them. */
  lemma {:induction false} WindowIsLastAccepted(before: seq<string>, capacity: nat, keys: seq<string>)
    ensures ObserveAll(LastN(before, capacity), capacity, keys)
            == LastN(before + Accepted(LastN(before, capacity), capacity, keys), capacity)
    decreases keys
  {
    var window := LastN(before, capacity);
    if keys == [] {
      assert before + [] == before;
    } else if keys[0] in window {
      WindowIsLastAccepted(before, capacity, keys[1..]);
      assert Accepted(window, capacity, keys) == Accepted(window, capacity, keys[1..]);
    } else {
      LastOfLast(before, keys[0], capacity);
      WindowIsLastAccepted(before + [keys[0]], capacity, keys[1..]);
      var rest := Accepted(LastN(before + [keys[0]], capacity), capacity, keys[1..]);
      assert before + ([keys[0]] + rest) == (before + [keys[0]]) + rest;
    }
  }

  lemma FirstIsNew(seen: seq<string>, capacity: nat, keys: seq<string>)
    requires keys != [] && Distinct(seen + keys)
    ensures keys[0] !in LastN(seen, capacity)
  {
    var window, all := LastN(seen, capacity), seen + keys;
    assert all[|seen|] == keys[0];
    assert forall i :: 0 <= i < |window| ==> window[i] == all[|seen| - |window| + i];
  }

  /** Observing distinct keys that are all new keeps the last of them. */
  lemma {:induction false} DistinctAllAccepted(seen: seq<string>, capacity: nat, keys: seq<string>)
    requires Distinct(seen + keys)
    ensures Accepted(LastN(seen, capacity), capacity, keys) == keys
    decreases keys
  {
    if keys != [] {
      FirstIsNew(seen, capacity, keys);
      hide LastN, Distinct;
      LastOfLast(seen, keys[0], capacity);
      assert (seen + [keys[0]]) + keys[1..] == seen + keys;
      DistinctAllAccepted(seen + [keys[0]], capacity, keys[1..]);
      assert keys == [keys[0]] + keys[1..];
    }
  }

  /** The window as the source keeps it: a set to ask and a queue to forget by. */
  class RecentKeys {
    const capacity: nat
    var keys: set<string>
    var order: seq<string>

    ghost predicate Valid()
      reads this
    {
      Distinct(order) && |order| <= capacity && keys == set k | k in order
    }

    constructor (capacity: nat)
      ensures Valid() && this.capacity == capacity && order == []
    {
      this.capacity := capacity;
      keys, order := {}, [];
    }

    method ObserveInPlace(key: string) returns (isNew: bool)
      requires Valid()
      modifies this
      ensures Valid()
      ensures (order, isNew) == Observe(old(order), capacity, key)
    {
      if key in keys { return false; }
      keys := keys + {key};
      order := order + [key];
      Trim();
      return true;
    }

    /** Forgets the oldest keys beyond the capacity. */
    method Trim()
      requires Distinct(order) && keys == set k | k in order
      modifies this
      ensures Valid() && order == LastN(old(order), capacity)
    {
      while |order| > capacity
        invariant |order| <= |old(order)| && order == old(order)[|old(order)| - |order|..]
        invariant |order| >= capacity || order == old(order)
        invariant Distinct(order) && keys == set k | k in order
      {
        var key := order[0];
        order := order[1..];
        keys := keys - {key};
      }
    }

    method Clear()
      modifies this
      ensures Valid() && order == []
    {
      keys, order := {}, [];
    }
  }
}
