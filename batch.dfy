/**
 * Collecting the outcomes of a batch of per-symbol tasks. A worker pool hands
 * the finished tasks back in completion order, which is some rearrangement of
 * the submission order; failed tasks yield `None` and are dropped.
 */
module Batch {
  import opened Wrappers

  /** The submission indices 0, 1, ..., n - 1. */
  function Indices(n: nat): (r: seq<nat>)
    ensures |r| == n
    ensures forall i :: 0 <= i < n ==> r[i] == i
  {
    seq(n, i => i)
  }

  /** The outcomes listed in the order `order` names them. */
  function Reorder<T>(a: seq<T>, order: seq<nat>): (r: seq<T>)
    requires forall k :: 0 <= k < |order| ==> order[k] < |a|
    ensures |r| == |order|
    ensures forall k :: 0 <= k < |order| ==> r[k] == a[order[k]]
  {
    seq(|order|, k requires 0 <= k < |order| => a[order[k]])
  }

  /** The payloads of the successful outcomes, in the order given. */
  function Collect<T>(a: seq<Option<T>>): (r: seq<T>)
    ensures |r| <= |a|
  {
    if a == [] then []
    else Collect(a[..|a| - 1]) + (if a[|a| - 1].Some? then [a[|a| - 1].value] else [])
  }

  /** A payload is collected exactly as often as it occurs as a success. */
  lemma {:induction false} CollectMultiplicity<T>(a: seq<Option<T>>, x: T)
    ensures multiset(Collect(a))[x] == multiset(a)[Some(x)]
  {
    if a != [] {
      var init, last := a[..|a| - 1], a[|a| - 1];
      assert a == init + [last];
      CollectMultiplicity(init, x);
    }
  }

  lemma CollectPermutation<T(!new)>(a: seq<Option<T>>, b: seq<Option<T>>)
    requires multiset(a) == multiset(b)
    ensures multiset(Collect(a)) == multiset(Collect(b))
  {
    forall x ensures multiset(Collect(a))[x] == multiset(Collect(b))[x] {
      CollectMultiplicity(a, x);
      CollectMultiplicity(b, x);
    }
  }

  /** Taking one index out of an order takes its outcome out of the reordered multiset. */
  lemma ReorderSplit<T>(a: seq<T>, before: seq<nat>, x: nat, after: seq<nat>)
    requires forall k :: 0 <= k < |before| ==> before[k] < |a|
    requires forall k :: 0 <= k < |after| ==> after[k] < |a|
    requires x < |a|
    ensures forall k :: 0 <= k < |before + [x] + after| ==> (before + [x] + after)[k] < |a|
    ensures forall k :: 0 <= k < |before + after| ==> (before + after)[k] < |a|
    ensures multiset(Reorder(a, before + [x] + after))
         == multiset(Reorder(a, before + after)) + multiset{a[x]}
  {
    var rb, ra := Reorder(a, before), Reorder(a, after);
    assert Reorder(a, before + [x] + after) == rb + [a[x]] + ra;
    assert Reorder(a, before + after) == rb + ra;
  }

  lemma RemoveMatching(o1: seq<nat>, o2: seq<nat>, j: nat)
    requires o1 != [] && multiset(o1) == multiset(o2)
    requires j < |o2| && o2[j] == o1[|o1| - 1]
    ensures multiset(o1[..|o1| - 1]) == multiset(o2[..j] + o2[j + 1..])
  {
    var last := o1[|o1| - 1];
    assert o1 == o1[..|o1| - 1] + [last];
    assert o2 == o2[..j] + [last] + o2[j + 1..];
    assert multiset(o1[..|o1| - 1]) == multiset(o1) - multiset{last};
    assert multiset(o2[..j] + o2[j + 1..]) == multiset(o2) - multiset{last};
  }

  lemma BoundsCarry(n: nat, o1: seq<nat>, o2: seq<nat>)
    requires forall k :: 0 <= k < |o1| ==> o1[k] < n
    requires multiset(o1) == multiset(o2)
    ensures forall k :: 0 <= k < |o2| ==> o2[k] < n
  {
    forall k | 0 <= k < |o2| ensures o2[k] < n {
      assert o2[k] in multiset(o2);
      assert o2[k] in o1;
    }
  }

  /** Two orders that list the same indices list the same outcomes, as multisets. */
  lemma {:induction false} ReorderPermutation<T>(a: seq<T>, o1: seq<nat>, o2: seq<nat>)
    requires forall k :: 0 <= k < |o1| ==> o1[k] < |a|
    requires multiset(o1) == multiset(o2)
    ensures forall k :: 0 <= k < |o2| ==> o2[k] < |a|
    ensures multiset(Reorder(a, o1)) == multiset(Reorder(a, o2))
  {
    BoundsCarry(|a|, o1, o2);
    if o1 != [] {
      var init, last := o1[..|o1| - 1], o1[|o1| - 1];
      assert last in multiset(o2) by { assert last in o1; }
      var j :| 0 <= j < |o2| && o2[j] == last;
      var before, after := o2[..j], o2[j + 1..];
      RemoveMatching(o1, o2, j);
      ReorderSplit(a, init, last, []);
      ReorderSplit(a, before, last, after);
      assert o1 == init + [last] + [];
      assert o2 == before + [last] + after;
      assert init + [] == init;
      ReorderPermutation(a, init, before + after);
    }
  }

  /** Listing every outcome once, in any order, loses and invents none of them. */
  lemma CompletionOrderPermutes<T>(a: seq<T>, order: seq<nat>)
    requires multiset(order) == multiset(Indices(|a|))
    ensures forall k :: 0 <= k < |order| ==> order[k] < |a|
    ensures multiset(Reorder(a, order)) == multiset(a)
  {
    var ix := Indices(|a|);
    ReorderPermutation(a, ix, order);
    assert Reorder(a, ix) == a;
  }
}
