/** Sequence operations that stand for the SQL clauses the routes rely on:
    WHERE is Filter, SUM is SumBy, ORDER BY is SortBy and LIMIT is Take. */
module Seqs {
  import opened Wrappers

  /** The elements of `s` that satisfy `p`, in their original order. */
  function Filter<T>(s: seq<T>, p: T -> bool): (r: seq<T>)
    ensures |r| <= |s|
    ensures forall x :: x in r ==> x in s && p(x)
    ensures forall x :: x in s && p(x) ==> x in r
  {
    if s == [] then []
    else
      assert s == [s[0]] + s[1..];
      (if p(s[0]) then [s[0]] else []) + Filter(s[1..], p)
  }

  /** The complement of a predicate. */
  function Not<T>(p: T -> bool): T -> bool
  {
    x => !p(x)
  }

  lemma {:induction false} FilterAppend<T>(a: seq<T>, b: seq<T>, p: T -> bool)
    ensures Filter(a + b, p) == Filter(a, p) + Filter(b, p)
  {
    if a == [] {
      assert a + b == b;
    } else {
      assert (a + b)[0] == a[0];
      assert (a + b)[1..] == a[1..] + b;
      FilterAppend(a[1..], b, p);
    }
  }

  /** Filtering keeps every element when all of them satisfy the predicate. */
  lemma {:induction false} FilterAll<T>(s: seq<T>, p: T -> bool)
    requires forall x :: x in s ==> p(x)
    ensures Filter(s, p) == s
  {
    if s != [] {
      FilterAll(s[1..], p);
    }
  }

  /** Filtering drops every element when none satisfies the predicate. */
  lemma {:induction false} FilterNone<T>(s: seq<T>, p: T -> bool)
    requires forall x :: x in s ==> !p(x)
    ensures Filter(s, p) == []
  {
    if s != [] {
      FilterNone(s[1..], p);
    }
  }

  /** Predicates that agree on every element select the same elements. */
  lemma {:induction false} FilterSame<T>(s: seq<T>, p: T -> bool, q: T -> bool)
    requires forall x :: x in s ==> p(x) == q(x)
    ensures Filter(s, p) == Filter(s, q)
  {
    if s != [] {
      assert s[0] in s;
      FilterSame(s[1..], p, q);
    }
  }

  /** Filtering by `p` first is redundant when `q` implies `p`. */
  lemma {:induction false} FilterFilter<T>(s: seq<T>, p: T -> bool, q: T -> bool)
    requires forall x :: x in s && q(x) ==> p(x)
    ensures Filter(Filter(s, p), q) == Filter(s, q)
  {
    if s != [] {
      FilterFilter(s[1..], p, q);
      var head := if p(s[0]) then [s[0]] else [];
      FilterAppend(head, Filter(s[1..], p), q);
      if p(s[0]) {
        assert head[1..] == [];
      }
    }
  }

  /** Filtering twice is filtering once by the conjunction. */
  lemma {:induction false} FilterAnd<T>(s: seq<T>, p: T -> bool, q: T -> bool, pq: T -> bool)
    requires forall x :: x in s ==> pq(x) == (p(x) && q(x))
    ensures Filter(Filter(s, p), q) == Filter(s, pq)
  {
    if s != [] {
      FilterAnd(s[1..], p, q, pq);
      var head := if p(s[0]) then [s[0]] else [];
      FilterAppend(head, Filter(s[1..], p), q);
      if p(s[0]) {
        assert head[1..] == [];
      }
    }
  }

  /** Filtering keeps exactly a slice when the predicate holds on exactly
      the positions of that slice. */
  lemma {:induction false} FilterRange<T>(s: seq<T>, p: T -> bool, lo: nat, hi: nat)
    requires lo <= hi <= |s|
    requires forall i :: 0 <= i < |s| ==> (p(s[i]) <==> lo <= i < hi)
    ensures Filter(s, p) == s[lo..hi]
  {
    if s != [] {
      var rest := s[1..];
      assert forall i :: 0 <= i < |rest| ==> rest[i] == s[i + 1];
      if hi == 0 {
        FilterRange(rest, p, 0, 0);
      } else if lo == 0 {
        FilterRange(rest, p, 0, hi - 1);
        assert s[0..hi] == [s[0]] + rest[0..hi - 1];
      } else {
        FilterRange(rest, p, lo - 1, hi - 1);
        assert s[lo..hi] == rest[lo - 1..hi - 1];
      }
    }
  }

  /** The sum of `f` over `s`, like Python's `sum(f(x) for x in s)`. */
  function SumBy<T>(s: seq<T>, f: T -> real): real
  {
    if s == [] then 0.0 else f(s[0]) + SumBy(s[1..], f)
  }

  lemma {:induction false} SumByAppend<T>(a: seq<T>, b: seq<T>, f: T -> real)
    ensures SumBy(a + b, f) == SumBy(a, f) + SumBy(b, f)
  {
    if a == [] {
      assert a + b == b;
    } else {
      assert (a + b)[0] == a[0];
      assert (a + b)[1..] == a[1..] + b;
      SumByAppend(a[1..], b, f);
    }
  }

  /** `f` where `p` holds and zero elsewhere. */
  function Masked<T>(p: T -> bool, f: T -> real): T -> real
  {
    x => if p(x) then f(x) else 0.0
  }

  /** Summing the filtered elements is summing the masked values of all of them. */
  lemma {:induction false} SumByFilter<T>(s: seq<T>, p: T -> bool, f: T -> real)
    ensures SumBy(Filter(s, p), f) == SumBy(s, Masked(p, f))
  {
    if s != [] {
      SumByFilter(s[1..], p, f);
      var head := if p(s[0]) then [s[0]] else [];
      SumByAppend(head, Filter(s[1..], p), f);
      if p(s[0]) {
        assert head[1..] == [];
      }
    }
  }

  /** A sum does not depend on the order of the elements. */
  lemma {:induction false} SumByPermutation<T>(a: seq<T>, b: seq<T>, f: T -> real)
    requires multiset(a) == multiset(b)
    ensures SumBy(a, f) == SumBy(b, f)
    decreases |a|
  {
    if a != [] {
      var x := a[0];
      assert x in multiset(b);
      var i :| 0 <= i < |b| && b[i] == x;
      var b' := b[..i] + b[i + 1..];
      assert b == b[..i] + ([x] + b[i + 1..]);
      assert multiset(b') == multiset(b) - multiset{x};
      assert a == [x] + a[1..];
      assert multiset(a[1..]) == multiset(a) - multiset{x};
      SumByPermutation(a[1..], b', f);
      SumByAppend(b[..i], [x] + b[i + 1..], f);
      SumByAppend(b[..i], b[i + 1..], f);
      assert ([x] + b[i + 1..])[1..] == b[i + 1..];
    }
  }

  /** A sum splits into the part where `p` holds and the part where it does not. */
  lemma {:induction false} SumByPartition<T>(s: seq<T>, p: T -> bool, f: T -> real)
    ensures SumBy(Filter(s, p), f) + SumBy(Filter(s, Not(p)), f) == SumBy(s, f)
  {
    if s != [] {
      SumByPartition(s[1..], p, f);
      var head := if p(s[0]) then [s[0]] else [];
      var other := if Not(p)(s[0]) then [s[0]] else [];
      SumByAppend(head, Filter(s[1..], p), f);
      SumByAppend(other, Filter(s[1..], Not(p)), f);
    }
  }

  lemma {:induction false} SumByNonneg<T>(s: seq<T>, f: T -> real)
    requires forall x :: x in s ==> f(x) >= 0.0
    ensures SumBy(s, f) >= 0.0
  {
    if s != [] {
      SumByNonneg(s[1..], f);
    }
  }

  /** With non-negative terms, a weaker filter never sums to less. */
  lemma {:induction false} SumByFilterMono<T>(s: seq<T>, p: T -> bool, q: T -> bool, f: T -> real)
    requires forall x :: x in s ==> f(x) >= 0.0
    requires forall x :: x in s && p(x) ==> q(x)
    ensures SumBy(Filter(s, p), f) <= SumBy(Filter(s, q), f)
  {
    if s != [] {
      SumByFilterMono(s[1..], p, q, f);
      var hp := if p(s[0]) then [s[0]] else [];
      var hq := if q(s[0]) then [s[0]] else [];
      SumByAppend(hp, Filter(s[1..], p), f);
      SumByAppend(hq, Filter(s[1..], q), f);
    }
  }

  /** Two sequences of equal length whose terms agree position by position
      have equal sums. */
  lemma {:induction false} SumByPointwise<A, B>(a: seq<A>, f: A -> real, b: seq<B>, g: B -> real)
    requires |a| == |b|
    requires forall i :: 0 <= i < |a| ==> f(a[i]) == g(b[i])
    ensures SumBy(a, f) == SumBy(b, g)
  {
    if a != [] {
      assert forall i :: 0 <= i < |a[1..]| ==> a[1..][i] == a[i + 1] && b[1..][i] == b[i + 1];
      SumByPointwise(a[1..], f, b[1..], g);
    }
  }

  /** The sum of at most three terms, written out. */
  lemma SumBySmall<T>(s: seq<T>, f: T -> real)
    requires |s| <= 3
    ensures SumBy(s, f) == (if |s| > 0 then f(s[0]) else 0.0) + (if |s| > 1 then f(s[1]) else 0.0)
                           + (if |s| > 2 then f(s[2]) else 0.0)
  {
    if |s| > 0 {
      var r := s[1..];
      if |r| > 0 {
        assert r[1..] == s[2..];
      }
    }
  }

  /** The first `n` elements (SQL LIMIT n). */
  function Take<T>(s: seq<T>, n: nat): (r: seq<T>)
    ensures |r| == if |s| < n then |s| else n
    ensures r == s[..|r|]
  {
    if |s| <= n then s else s[..n]
  }

  /** `s` without its element at index `k`. */
  function RemoveAt<T>(s: seq<T>, k: nat): (r: seq<T>)
    requires k < |s|
    ensures |r| == |s| - 1
    ensures forall i :: 0 <= i < k ==> r[i] == s[i]
    ensures forall i :: k <= i < |r| ==> r[i] == s[i + 1]
  {
    s[..k] + s[k + 1..]
  }

  /** The position of the first element satisfying `p` (a query's `.first()`). */
  function FirstIndex<T>(s: seq<T>, p: T -> bool): (r: Option<nat>)
    ensures r.Some? ==> r.value < |s| && p(s[r.value])
    ensures r.Some? ==> forall i :: 0 <= i < r.value ==> !p(s[i])
    ensures r.None? ==> forall i :: 0 <= i < |s| ==> !p(s[i])
  {
    if s == [] then None
    else if p(s[0]) then Some(0)
    else match FirstIndex(s[1..], p)
      case None => None
      case Some(k) => Some(k + 1)
  }

  /** Removing an element keeps the rest in key order; in a sequence ordered
      by a key, exactly the elements with another key remain. */
  lemma RemoveAtIncreasing<T>(s: seq<T>, k: nat, key: T -> int)
    requires k < |s| && IncreasingBy(s, key)
    ensures IncreasingBy(RemoveAt(s, k), key)
    ensures forall x :: x in RemoveAt(s, k) ==> x in s && key(x) != key(s[k])
    ensures forall x :: x in s && key(x) != key(s[k]) ==> x in RemoveAt(s, k)
  {
    var r := RemoveAt(s, k);
    forall x | x in r
      ensures x in s && key(x) != key(s[k])
    {
      var i :| 0 <= i < |r| && r[i] == x;
      if i < k { assert s[i] == x; } else { assert s[i + 1] == x; }
    }
    forall x | x in s && key(x) != key(s[k])
      ensures x in r
    {
      var i :| 0 <= i < |s| && s[i] == x;
      if i < k { assert r[i] == x; } else { assert r[i - 1] == x; }
    }
  }

  // ---------------------------------------------------------------- ordering

  /** `le` orders every pair and is transitive (ties are allowed, as in ORDER BY). */
  ghost predicate TotalPreorder<T(!new)>(le: (T, T) -> bool)
  {
    && (forall a, b :: le(a, b) || le(b, a))
    && (forall a, b, c :: le(a, b) && le(b, c) ==> le(a, c))
  }

  predicate SortedBy<T>(s: seq<T>, le: (T, T) -> bool)
  {
    forall i, j :: 0 <= i < j < |s| ==> le(s[i], s[j])
  }

  function Insert<T>(x: T, s: seq<T>, le: (T, T) -> bool): (r: seq<T>)
    ensures |r| == |s| + 1
    ensures multiset(r) == multiset(s) + multiset{x}
  {
    if s == [] then [x]
    else if le(x, s[0]) then [x] + s
    else
      assert s == [s[0]] + s[1..];
      [s[0]] + Insert(x, s[1..], le)
  }

  /** Insertion sort: one deterministic answer to an ORDER BY whose ties are unspecified. */
  function SortBy<T>(s: seq<T>, le: (T, T) -> bool): (r: seq<T>)
    ensures |r| == |s|
    ensures multiset(r) == multiset(s)
  {
    if s == [] then []
    else
      assert s == [s[0]] + s[1..];
      Insert(s[0], SortBy(s[1..], le), le)
  }

  lemma {:induction false} InsertSorted<T(!new)>(x: T, s: seq<T>, le: (T, T) -> bool)
    requires TotalPreorder(le)
    requires SortedBy(s, le)
    ensures SortedBy(Insert(x, s, le), le)
  {
    if s != [] && !le(x, s[0]) {
      var rest := Insert(x, s[1..], le);
      InsertSorted(x, s[1..], le);
      assert le(s[0], x);
      forall y | y in rest
        ensures le(s[0], y)
      {
        assert y in multiset(rest);
        if y != x {
          assert y in multiset(s[1..]);
          assert y in s[1..];
        }
      }
      var r := [s[0]] + rest;
      forall i, j | 0 <= i < j < |r|
        ensures le(r[i], r[j])
      {
        if i == 0 {
          assert r[j] == rest[j - 1];
          assert r[j] in rest;
        } else {
          assert r[i] == rest[i - 1] && r[j] == rest[j - 1];
        }
      }
    }
  }

  lemma {:induction false} SortBySorted<T(!new)>(s: seq<T>, le: (T, T) -> bool)
    requires TotalPreorder(le)
    ensures SortedBy(SortBy(s, le), le)
  {
    if s != [] {
      SortBySorted(s[1..], le);
      InsertSorted(s[0], SortBy(s[1..], le), le);
    }
  }

  lemma {:induction false} SumByInsert<T>(x: T, s: seq<T>, le: (T, T) -> bool, f: T -> real)
    ensures SumBy(Insert(x, s, le), f) == f(x) + SumBy(s, f)
  {
    if s != [] && !le(x, s[0]) {
      SumByInsert(x, s[1..], le, f);
    }
  }

  /** Ordering a query's rows does not change any sum over them. */
  lemma {:induction false} SumBySortBy<T>(s: seq<T>, le: (T, T) -> bool, f: T -> real)
    ensures SumBy(SortBy(s, le), f) == SumBy(s, f)
  {
    if s != [] {
      SumBySortBy(s[1..], le, f);
      SumByInsert(s[0], SortBy(s[1..], le), le, f);
    }
  }

  /** ORDER BY followed by LIMIT k keeps k rows that come first in the order:
      every row it drops is ordered after every row it keeps. */
  lemma TakeOfSortedIsTop<T>(s: seq<T>, le: (T, T) -> bool, k: nat)
    requires SortedBy(s, le)
    ensures SortedBy(Take(s, k), le)
    ensures forall x, y :: x in multiset(s) - multiset(Take(s, k)) && y in Take(s, k) ==> le(y, x)
  {
    var t := Take(s, k);
    if |t| < |s| {
      assert s == t + s[|t|..];
      forall x, y | x in multiset(s) - multiset(t) && y in t
        ensures le(y, x)
      {
        assert multiset(s) == multiset(t) + multiset(s[|t|..]);
        assert x in multiset(s[|t|..]);
        assert x in s[|t|..];
        var j :| |t| <= j < |s| && s[j] == x;
        var i :| 0 <= i < |t| && t[i] == y;
      }
    }
  }

  // ---------------------------------------------------------------- keys

  /** Keys strictly increase along the sequence (rows kept in primary-key order). */
  predicate IncreasingBy<T>(s: seq<T>, key: T -> int)
  {
    forall i, j :: 0 <= i < j < |s| ==> key(s[i]) < key(s[j])
  }

  lemma {:induction false} FilterIncreasing<T>(s: seq<T>, p: T -> bool, key: T -> int)
    requires IncreasingBy(s, key)
    ensures IncreasingBy(Filter(s, p), key)
  {
    if s != [] {
      FilterIncreasing(s[1..], p, key);
      var rest := Filter(s[1..], p);
      if p(s[0]) {
        var r := [s[0]] + rest;
        forall i, j | 0 <= i < j < |r|
          ensures key(r[i]) < key(r[j])
        {
          if i == 0 {
            assert r[j] == rest[j - 1];
            assert r[j] in s[1..];
          } else {
            assert r[i] == rest[i - 1] && r[j] == rest[j - 1];
          }
        }
      }
    }
  }
}
