/**
 * Order-preserving filters and "sort by a key, keep the first n" selections,
 * the two shapes every report of the analysis scripts is built from
 * (`df[df['change'] > 0]`, `sort_values(...).head(n)`).
 */
module Ranking {

  /** The elements of `s` that satisfy `keep`, in their original order. */
  function Filter<T>(s: seq<T>, keep: T -> bool): (r: seq<T>)
    ensures |r| <= |s|
    ensures forall i :: 0 <= i < |r| ==> keep(r[i])
  {
    if s == [] then []
    else Filter(s[..|s| - 1], keep) + (if keep(s[|s| - 1]) then [s[|s| - 1]] else [])
  }

  /** Each value occurs in the filtered list as often as in `s` when it is kept, and never otherwise. */
  lemma {:induction false} FilterMultiplicity<T>(s: seq<T>, keep: T -> bool, x: T)
    ensures multiset(Filter(s, keep))[x] == if keep(x) then multiset(s)[x] else 0
  {
    if s != [] {
      var init, last := s[..|s| - 1], s[|s| - 1];
      assert s == init + [last];
      FilterMultiplicity(init, keep, x);
    }
  }

  /** An element is kept exactly when it occurs in `s` and satisfies `keep`. */
  lemma FilterMembership<T>(s: seq<T>, keep: T -> bool, x: T)
    ensures x in Filter(s, keep) <==> x in s && keep(x)
  {
    FilterMultiplicity(s, keep, x);
    assert x in Filter(s, keep) <==> x in multiset(Filter(s, keep));
    assert x in s <==> x in multiset(s);
  }

  /** Filtering distributes over concatenation: the filter keeps relative order. */
  lemma {:induction false} FilterAppend<T>(s: seq<T>, t: seq<T>, keep: T -> bool)
    ensures Filter(s + t, keep) == Filter(s, keep) + Filter(t, keep)
  {
    if t == [] {
      assert s + t == s;
    } else {
      var init, last := t[..|t| - 1], t[|t| - 1];
      var tail := if keep(last) then [last] else [];
      assert (s + t)[..|s + t| - 1] == s + init;
      assert (s + t)[|s + t| - 1] == last;
      calc {
        Filter(s + t, keep);
        Filter(s + init, keep) + tail;
        { FilterAppend(s, init, keep); }
        Filter(s, keep) + Filter(init, keep) + tail;
        Filter(s, keep) + Filter(t, keep);
      }
    }
  }

  /** Two predicates that never hold together select at most |s| elements between them. */
  lemma {:induction false} FilterDisjointCount<T>(s: seq<T>, p: T -> bool, q: T -> bool)
    requires forall x :: !(p(x) && q(x))
    ensures |Filter(s, p)| + |Filter(s, q)| <= |s|
  {
    if s != [] {
      FilterDisjointCount(s[..|s| - 1], p, q);
    }
  }

  /** `a` may come before `b` in a list sorted by `key` (non-increasing when `descending`). */
  predicate Precedes<T>(a: T, b: T, key: T -> real, descending: bool)
  {
    if descending then key(a) >= key(b) else key(a) <= key(b)
  }

  predicate SortedBy<T>(s: seq<T>, key: T -> real, descending: bool)
  {
    forall i, j :: 0 <= i < j < |s| ==> Precedes(s[i], s[j], key, descending)
  }

  function Insert<T>(x: T, s: seq<T>, key: T -> real, descending: bool): (r: seq<T>)
    requires SortedBy(s, key, descending)
    ensures SortedBy(r, key, descending)
    ensures multiset(r) == multiset(s) + multiset{x}
  {
    if s == [] then [x]
    else if Precedes(x, s[0], key, descending) then
      assert SortedBy([x] + s, key, descending) by {
        forall i, j | 0 <= i < j < |[x] + s|
          ensures Precedes(([x] + s)[i], ([x] + s)[j], key, descending)
        {
          if i == 0 && j > 1 { assert Precedes(s[0], s[j - 1], key, descending); }
        }
      }
      assert s == [s[0]] + s[1..];
      [x] + s
    else
      var rest := Insert(x, s[1..], key, descending);
      assert s == [s[0]] + s[1..];
      InsertHeadPrecedes(x, s, rest, key, descending);
      [s[0]] + rest
  }

  lemma InsertHeadPrecedes<T>(x: T, s: seq<T>, rest: seq<T>, key: T -> real, descending: bool)
    requires s != [] && SortedBy(s, key, descending) && SortedBy(rest, key, descending)
    requires !Precedes(x, s[0], key, descending)
    requires multiset(rest) == multiset(s[1..]) + multiset{x}
    ensures SortedBy([s[0]] + rest, key, descending)
  {
    forall j | 0 <= j < |rest| ensures Precedes(s[0], rest[j], key, descending) {
      assert rest[j] in multiset(rest);
      if rest[j] != x {
        assert rest[j] in s[1..];
        var k :| 0 <= k < |s[1..]| && s[1..][k] == rest[j];
        assert s[k + 1] == rest[j];
      }
    }
    forall i, j | 0 <= i < j < |[s[0]] + rest|
      ensures Precedes(([s[0]] + rest)[i], ([s[0]] + rest)[j], key, descending)
    {
      if i == 0 { assert ([s[0]] + rest)[j] == rest[j - 1]; }
    }
  }

  /** The elements of `s` rearranged in key order (ascending or descending). */
  function SortBy<T>(s: seq<T>, key: T -> real, descending: bool): (r: seq<T>)
    ensures SortedBy(r, key, descending)
    ensures multiset(r) == multiset(s)
  {
    if s == [] then []
    else
      assert s == s[..|s| - 1] + [s[|s| - 1]];
      Insert(s[|s| - 1], SortBy(s[..|s| - 1], key, descending), key, descending)
  }

  function Min(a: nat, b: nat): nat
  {
    if a <= b then a else b
  }

  /** `sort_values(key, ascending = !descending).head(n)`. */
  function TopN<T(!new)>(s: seq<T>, key: T -> real, descending: bool, n: nat): (r: seq<T>)
    ensures |r| == Min(n, |s|)
    ensures multiset(r) <= multiset(s)
    ensures SortedBy(r, key, descending)
    ensures forall x, y :: x in multiset(s) - multiset(r) && y in r ==> Precedes(y, x, key, descending)
  {
    var sorted := SortBy(s, key, descending);
    var m := Min(n, |s|);
    PrefixOfSorted(s, sorted, key, descending, m);
    sorted[..m]
  }

  /** The first `m` of a sorted rearrangement of `s` come no later than any element left behind. */
  lemma PrefixOfSorted<T(!new)>(s: seq<T>, sorted: seq<T>, key: T -> real, descending: bool, m: nat)
    requires SortedBy(sorted, key, descending) && multiset(sorted) == multiset(s)
    requires m <= |s|
    ensures m <= |sorted|
    ensures |sorted[..m]| == m
    ensures multiset(sorted[..m]) <= multiset(s)
    ensures SortedBy(sorted[..m], key, descending)
    ensures forall x, y :: x in multiset(s) - multiset(sorted[..m]) && y in sorted[..m] ==> Precedes(y, x, key, descending)
  {
    assert |sorted| == |s| by {
      assert |multiset(sorted)| == |multiset(s)|;
    }
    assert sorted == sorted[..m] + sorted[m..];
    assert multiset(s) - multiset(sorted[..m]) == multiset(sorted[m..]);
    forall x, y | x in multiset(s) - multiset(sorted[..m]) && y in sorted[..m]
      ensures Precedes(y, x, key, descending)
    {
      assert x in sorted[m..];
      var j :| 0 <= j < |sorted[m..]| && sorted[m..][j] == x;
      var i :| 0 <= i < m && sorted[..m][i] == y;
      assert sorted[i] == y && sorted[m + j] == x;
    }
  }
}
