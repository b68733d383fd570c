/** Sequence toolkit shared by the ledger queries and the dashboard:
    a stable insertion sort over a total preorder (SQL ORDER BY and
    Python's list.sort), filtering (SQL WHERE), ORDER BY ... LIMIT, and
    sums (SQL SUM and Python's sum). */
module Sorting {
  import opened Wrappers

  /** `le` compares every two elements and chains: a total preorder. */
  ghost predicate TotalPreorder<T(!new)>(le: (T, T) -> bool)
  {
    && (forall a, b :: le(a, b) || le(b, a))
    && (forall a, b, c :: le(a, b) && le(b, c) ==> le(a, c))
  }

  ghost predicate SortedBy<T>(s: seq<T>, le: (T, T) -> bool)
  {
    forall i, j :: 0 <= i < j < |s| ==> le(s[i], s[j])
  }

  /** Places `x` before the first element it does not come after. */
  function Insert<T>(x: T, s: seq<T>, le: (T, T) -> bool): (r: seq<T>)
    ensures multiset(r) == multiset(s) + multiset{x}
  {
    if s == [] || le(x, s[0]) then [x] + s
    else
      assert s == [s[0]] + s[1..];
      [s[0]] + Insert(x, s[1..], le)
  }

  /** Stable insertion sort: equal elements keep their input order. */
  function SortBy<T>(xs: seq<T>, le: (T, T) -> bool): (r: seq<T>)
    ensures multiset(r) == multiset(xs)
    ensures |r| == |xs|
  {
    if xs == [] then []
    else
      assert xs == [xs[0]] + xs[1..];
      Insert(xs[0], SortBy(xs[1..], le), le)
  }

  lemma {:induction false} InsertSorted<T(!new)>(x: T, s: seq<T>, le: (T, T) -> bool)
    requires TotalPreorder(le) && SortedBy(s, le)
    ensures SortedBy(Insert(x, s, le), le)
  {
    if s == [] || le(x, s[0]) {
    } else {
      var t := s[1..];
      InsertSorted(x, t, le);
      var r := Insert(x, t, le);
      forall k | 0 <= k < |r|
        ensures le(s[0], r[k])
      {
        assert r[k] in multiset(r);
        if r[k] != x {
          assert r[k] in t;
          var j :| 0 <= j < |t| && t[j] == r[k];
          assert s[j + 1] == r[k];
        }
      }
    }
  }

  lemma {:induction false} SortBySorted<T(!new)>(xs: seq<T>, le: (T, T) -> bool)
    requires TotalPreorder(le)
    ensures SortedBy(SortBy(xs, le), le)
  {
    if xs != [] {
      SortBySorted(xs[1..], le);
      InsertSorted(xs[0], SortBy(xs[1..], le), le);
    }
  }

  /** The elements of `s` that `le` ranks level with `x`, in their order in `s`. */
  function Level<T>(s: seq<T>, x: T, le: (T, T) -> bool): seq<T>
  {
    if s == [] then []
    else (if le(x, s[0]) && le(s[0], x) then [s[0]] else []) + Level(s[1..], x, le)
  }

  lemma {:induction false} InsertStable<T(!new)>(y: T, s: seq<T>, x: T, le: (T, T) -> bool)
    requires TotalPreorder(le)
    ensures Level(Insert(y, s, le), x, le) == Level([y] + s, x, le)
  {
    assert ([y] + s)[1..] == s;
    if s == [] || le(y, s[0]) {
    } else {
      InsertStable(y, s[1..], x, le);
      assert ([y] + s[1..])[1..] == s[1..];
      assert ([s[0]] + Insert(y, s[1..], le))[1..] == Insert(y, s[1..], le);
    }
  }

  /** Stability: for every element, the elements level with it appear in
      the sorted sequence in the same relative order as in the input. */
  lemma {:induction false} SortByStable<T(!new)>(xs: seq<T>, x: T, le: (T, T) -> bool)
    requires TotalPreorder(le)
    ensures Level(SortBy(xs, le), x, le) == Level(xs, x, le)
  {
    if xs != [] {
      SortByStable(xs[1..], x, le);
      InsertStable(xs[0], SortBy(xs[1..], le), x, le);
      assert ([xs[0]] + SortBy(xs[1..], le))[1..] == SortBy(xs[1..], le);
    }
  }

  /** SQL WHERE / Python list comprehension with a condition. */
  function Filter<T(!new)>(s: seq<T>, p: T -> bool): (r: seq<T>)
    ensures forall y :: y in r <==> y in s && p(y)
    ensures multiset(r) <= multiset(s)
  {
    if s == [] then []
    else
      assert s == [s[0]] + s[1..];
      (if p(s[0]) then [s[0]] else []) + Filter(s[1..], p)
  }

  /** ORDER BY ... LIMIT: the first `limit` elements of `xs` in `le` order. */
  function TopBy<T(!new)>(xs: seq<T>, le: (T, T) -> bool, limit: nat): (r: seq<T>)
    requires TotalPreorder(le)
    ensures |r| == Min(limit, |xs|)
    ensures multiset(r) <= multiset(xs)
    ensures |xs| <= limit ==> multiset(r) == multiset(xs)
    ensures SortedBy(r, le)
    ensures forall y, i :: y in xs && y !in r && 0 <= i < |r| ==> le(r[i], y)
  {
    var sorted := SortBy(xs, le);
    var k := Min(limit, |xs|);
    SortBySorted(xs, le);
    TopIsPrefix(sorted, k);
    TopBeatsRest(xs, sorted, le, k);
    assert |xs| <= limit ==> sorted[..k] == sorted;
    sorted[..k]
  }

  /** ORDER BY ... LIMIT over the rows WHERE `p`: only such rows come out,
      none twice, and such a row is left out only when the limit is reached
      by rows that come before it. */
  lemma TopOfFilter<T(!new)>(xs: seq<T>, p: T -> bool, le: (T, T) -> bool, limit: nat)
    requires TotalPreorder(le)
    ensures var r := TopBy(Filter(xs, p), le, limit);
      && |r| <= limit && multiset(r) <= multiset(xs)
      && (forall y :: y in r ==> y in xs && p(y))
      && (forall y :: y in xs && p(y) && y !in r ==> |r| == limit && forall u :: u in r ==> le(u, y))
  {
    var w := Filter(xs, p);
    var r := TopBy(w, le, limit);
    forall y | y in r
      ensures y in w
    {
      assert y in multiset(r);
    }
    forall y | y in xs && p(y) && y !in r
      ensures |r| == limit
    {
      assert y in multiset(w);
    }
  }

  lemma TopIsPrefix<T>(s: seq<T>, k: nat)
    requires k <= |s|
    ensures multiset(s[..k]) <= multiset(s)
  {
    assert s == s[..k] + s[k..];
  }

  lemma TopBeatsRest<T(!new)>(xs: seq<T>, sorted: seq<T>, le: (T, T) -> bool, k: nat)
    requires multiset(sorted) == multiset(xs) && SortedBy(sorted, le) && k <= |sorted|
    ensures forall y, i :: y in xs && y !in sorted[..k] && 0 <= i < k ==> le(sorted[i], y)
  {
    forall y, i | y in xs && y !in sorted[..k] && 0 <= i < k
      ensures le(sorted[i], y)
    {
      assert y in multiset(sorted);
      var j :| 0 <= j < |sorted| && sorted[j] == y;
      assert j >= k;
    }
  }

  /** The sum of `f` over `s`, an empty sum being 0. */
  function SumBy<T>(s: seq<T>, f: T -> int): int
  {
    if s == [] then 0 else f(s[0]) + SumBy(s[1..], f)
  }

  lemma {:induction false} SumByAppend<T>(a: seq<T>, b: seq<T>, f: T -> int)
    ensures SumBy(a + b, f) == SumBy(a, f) + SumBy(b, f)
  {
    if a == [] {
      assert a + b == b;
    } else {
      assert (a + b)[1..] == a[1..] + b;
      SumByAppend(a[1..], b, f);
    }
  }

  /** A sum does not depend on the order of its terms. */
  lemma {:induction false} SumByPermutation<T>(a: seq<T>, b: seq<T>, f: T -> int)
    requires multiset(a) == multiset(b)
    ensures SumBy(a, f) == SumBy(b, f)
  {
    if a == [] {
      assert |b| == |multiset(b)| == 0;
    } else {
      var x := a[0];
      assert x in multiset(b);
      var k :| 0 <= k < |b| && b[k] == x;
      var rest := b[..k] + b[k + 1..];
      MultisetRemove(b, k);
      assert a == [x] + a[1..];
      assert multiset(a[1..]) == multiset(a) - multiset{x};
      SumByPermutation(a[1..], rest, f);
      SumByRemove(b, k, f);
    }
  }

  lemma MultisetRemove<T>(b: seq<T>, k: nat)
    requires k < |b|
    ensures multiset(b[..k] + b[k + 1..]) == multiset(b) - multiset{b[k]}
  {
    assert b == b[..k] + [b[k]] + b[k + 1..];
  }

  lemma {:induction false} SumByRemove<T>(b: seq<T>, k: nat, f: T -> int)
    requires k < |b|
    ensures SumBy(b, f) == f(b[k]) + SumBy(b[..k] + b[k + 1..], f)
  {
    if k == 0 {
      assert b[..0] + b[1..] == b[1..];
    } else {
      var t := b[1..];
      SumByRemove(t, k - 1, f);
      assert b[..k] + b[k + 1..] == [b[0]] + (t[..k - 1] + t[k..]);
    }
  }

  /** Replacing one term changes the sum by the difference. */
  lemma SumByUpdate<T>(s: seq<T>, k: nat, v: T, f: T -> int)
    requires k < |s|
    ensures SumBy(s[k := v], f) == SumBy(s, f) - f(s[k]) + f(v)
  {
    assert s == s[..k] + [s[k]] + s[k + 1..];
    assert s[k := v] == s[..k] + [v] + s[k + 1..];
    SumByAppend(s[..k] + [s[k]], s[k + 1..], f);
    SumByAppend(s[..k], [s[k]], f);
    SumByAppend(s[..k] + [v], s[k + 1..], f);
    SumByAppend(s[..k], [v], f);
    assert SumBy([s[k]], f) == f(s[k]);
    assert SumBy([v], f) == f(v);
  }
}
