/** Sequence operations the modelled code performs with JavaScript's array
    methods: `filter`, `find`, `slice`, a stable `sort` by a numeric key in
    descending order, and the de-duplication done by `new Set(...)`. */
module Seqs {
  import opened Wrappers

  /** `s.filter(p)`. */
  function Filter<T(!new)>(s: seq<T>, p: T -> bool): (r: seq<T>)
    ensures |r| <= |s|
    ensures forall x :: x in r <==> x in s && p(x)
  {
    if s == [] then [] else (if p(s[0]) then [s[0]] else []) + Filter(s[1..], p)
  }

  /** `filter` keeps every copy of a kept element and no copy of a dropped one. */
  lemma {:induction false} FilterMultiplicity<T(!new)>(s: seq<T>, p: T -> bool)
    ensures forall x :: multiset(Filter(s, p))[x] == if p(x) then multiset(s)[x] else 0
  {
    if s != [] {
      FilterMultiplicity(s[1..], p);
      assert s == [s[0]] + s[1..];
    }
  }

  /** `a` is `b` with some elements dropped, order kept. */
  predicate IsSubsequence<T(==)>(a: seq<T>, b: seq<T>)
    decreases |b|
  {
    if b == [] then a == []
    else (a != [] && a[0] == b[0] && IsSubsequence(a[1..], b[1..])) || IsSubsequence(a, b[1..])
  }

  lemma {:induction false} FilterIsSubsequence<T(!new)>(s: seq<T>, p: T -> bool)
    ensures IsSubsequence(Filter(s, p), s)
  {
    if s != [] {
      FilterIsSubsequence(s[1..], p);
      var r := Filter(s, p);
      if p(s[0]) {
        assert r == [s[0]] + Filter(s[1..], p);
        assert r[1..] == Filter(s[1..], p);
      } else {
        assert r == Filter(s[1..], p);
      }
    }
  }

  /** Filtering distributes over concatenation. */
  lemma {:induction false} FilterConcat<T(!new)>(a: seq<T>, b: seq<T>, p: T -> bool)
    ensures Filter(a + b, p) == Filter(a, p) + Filter(b, p)
    decreases |a|
  {
    if a != [] {
      assert (a + b)[0] == a[0] && (a + b)[1..] == a[1..] + b;
      FilterConcat(a[1..], b, p);
      var head := if p(a[0]) then [a[0]] else [];
      assert Filter(a + b, p) == head + Filter(a[1..] + b, p);
      assert Filter(a, p) == head + Filter(a[1..], p);
    } else {
      assert a + b == b;
    }
  }

  /** Filtering with a predicate that holds everywhere keeps everything. */
  lemma {:induction false} FilterAll<T(!new)>(s: seq<T>, p: T -> bool)
    requires forall x :: x in s ==> p(x)
    ensures Filter(s, p) == s
  {
    if s != [] {
      FilterAll(s[1..], p);
    }
  }

  /** Two predicates that agree on every element filter alike. */
  lemma {:induction false} FilterAgree<T(!new)>(s: seq<T>, p: T -> bool, q: T -> bool)
    requires forall x :: x in s ==> p(x) == q(x)
    ensures Filter(s, p) == Filter(s, q)
  {
    if s != [] {
      FilterAgree(s[1..], p, q);
    }
  }

  /** `s.find(p)`: the first element satisfying `p`, if any. */
  function Find<T>(s: seq<T>, p: T -> bool): (r: Option<T>)
    ensures r.Some? <==> exists x :: x in s && p(x)
    ensures r.Some? ==> r.value in s && p(r.value)
  {
    if s == [] then None else if p(s[0]) then Some(s[0]) else Find(s[1..], p)
  }

  /** `Find` returns the earliest match. */
  lemma {:induction false} FindIsFirst<T>(s: seq<T>, p: T -> bool)
    requires Find(s, p).Some?
    ensures exists k :: 0 <= k < |s| && s[k] == Find(s, p).value && forall j :: 0 <= j < k ==> !p(s[j])
  {
    if p(s[0]) {
      assert s[0] == Find(s, p).value;
    } else {
      FindIsFirst(s[1..], p);
      var k :| 0 <= k < |s[1..]| && s[1..][k] == Find(s, p).value && forall j :: 0 <= j < k ==> !p(s[1..][j]);
      assert s[k + 1] == Find(s, p).value;
      assert forall j :: 0 <= j < k + 1 ==> !p(s[j]) by {
        forall j | 0 <= j < k + 1 ensures !p(s[j]) {
          if j > 0 {
            assert s[j] == s[1..][j - 1];
          }
        }
      }
    }
  }

  /** `s.slice(0, n)`. */
  function Take<T>(s: seq<T>, n: nat): (r: seq<T>)
    ensures |r| == (if |s| < n then |s| else n)
    ensures r == s[..|r|]
  {
    if |s| <= n then s else s[..n]
  }

  /** The keys of `s` never increase from left to right. */
  predicate SortedDescBy<T>(s: seq<T>, key: T -> int) {
    forall i, j :: 0 <= i < j < |s| ==> key(s[i]) >= key(s[j])
  }

  /** Inserts `x` in front of the first element whose key is not larger, so
      that an element placed earlier stays in front of later equal keys. */
  function InsertDescBy<T(!new)>(x: T, s: seq<T>, key: T -> int): (r: seq<T>)
    requires SortedDescBy(s, key)
    ensures SortedDescBy(r, key)
    ensures multiset(r) == multiset(s) + multiset{x}
    ensures forall y :: y in r <==> y == x || y in s
  {
    if s == [] then [x]
    else if key(s[0]) <= key(x) then [x] + s
    else
      assert s == [s[0]] + s[1..];
      var rest := InsertDescBy(x, s[1..], key);
      assert forall y :: y in rest ==> key(y) <= key(s[0]) by {
        forall y | y in rest ensures key(y) <= key(s[0]) {
          if y != x {
            var j :| 0 <= j < |s[1..]| && s[1..][j] == y;
            assert s[j + 1] == y;
          }
        }
      }
      SortedCons(s[0], rest, key);
      [s[0]] + rest
  }

  /** An element no smaller than every element of a sorted sequence can go
      in front of it. */
  lemma SortedCons<T>(h: T, t: seq<T>, key: T -> int)
    requires SortedDescBy(t, key)
    requires forall y :: y in t ==> key(y) <= key(h)
    ensures SortedDescBy([h] + t, key)
  {
    var r := [h] + t;
    forall i, j | 0 <= i < j < |r| ensures key(r[i]) >= key(r[j]) {
      assert r[j] == t[j - 1];
      if i > 0 {
        assert r[i] == t[i - 1];
      }
    }
  }

  /** `s.sort((a, b) => key(b) - key(a))`: stable, newest (largest key) first. */
  function SortDescBy<T(!new)>(s: seq<T>, key: T -> int): (r: seq<T>)
    ensures SortedDescBy(r, key)
    ensures multiset(r) == multiset(s)
  {
    if s == [] then []
    else
      assert s == [s[0]] + s[1..];
      InsertDescBy(s[0], SortDescBy(s[1..], key), key)
  }

  /** Sorting keeps exactly the same elements. */
  lemma SortKeepsMembers<T(!new)>(s: seq<T>, key: T -> int)
    ensures forall x :: x in SortDescBy(s, key) <==> x in s
  {
    var r := SortDescBy(s, key);
    forall x ensures x in r <==> x in s {
      assert x in r <==> x in multiset(r);
      assert x in s <==> x in multiset(s);
    }
  }

  /** The ties of `s` increase strictly from left to right. */
  predicate IncreasingBy<T>(s: seq<T>, tie: T -> int) {
    forall i, j :: 0 <= i < j < |s| ==> tie(s[i]) < tie(s[j])
  }

  /** `x` goes before `y`: a larger key, or an equal key and a smaller tie. */
  predicate Before<T>(x: T, y: T, key: T -> int, tie: T -> int) {
    key(x) > key(y) || (key(x) == key(y) && tie(x) < tie(y))
  }

  /** Decreasing by `key`, and among equal keys increasing by `tie`. */
  predicate SortedDescThenBy<T>(s: seq<T>, key: T -> int, tie: T -> int) {
    forall i, j :: 0 <= i < j < |s| ==> Before(s[i], s[j], key, tie)
  }

  /** A head with a smaller tie than every element keeps a sequence increasing. */
  lemma ConsIncreasing<T>(h: T, t: seq<T>, tie: T -> int)
    requires IncreasingBy(t, tie) && forall y :: y in t ==> tie(h) < tie(y)
    ensures IncreasingBy([h] + t, tie)
  {
    var r := [h] + t;
    forall i, j | 0 <= i < j < |r| ensures tie(r[i]) < tie(r[j]) {
      assert r[j] == t[j - 1];
      if i > 0 {
        assert r[i] == t[i - 1];
      }
    }
  }

  /** A head going before every element keeps a sequence sorted by key then tie. */
  lemma ConsSortedThenBy<T>(h: T, t: seq<T>, key: T -> int, tie: T -> int)
    requires SortedDescThenBy(t, key, tie) && forall y :: y in t ==> Before(h, y, key, tie)
    ensures SortedDescThenBy([h] + t, key, tie)
  {
    var r := [h] + t;
    forall i, j | 0 <= i < j < |r| ensures Before(r[i], r[j], key, tie) {
      assert r[j] == t[j - 1];
      if i > 0 {
        assert r[i] == t[i - 1];
      }
    }
  }

  /** The head of a sorted sequence goes before every later element. */
  lemma HeadGoesFirst<T>(t: seq<T>, key: T -> int, tie: T -> int)
    requires t != [] && SortedDescThenBy(t, key, tie)
    ensures forall y :: y in t[1..] ==> Before(t[0], y, key, tie)
  {
    forall y | y in t[1..] ensures Before(t[0], y, key, tie) {
      var k :| 0 <= k < |t[1..]| && t[1..][k] == y;
      assert t[k + 1] == y;
    }
  }

  /** The head of a strictly increasing sequence has the smallest tie. */
  lemma HeadHasSmallestTie<T>(s: seq<T>, tie: T -> int)
    requires s != [] && IncreasingBy(s, tie)
    ensures forall y :: y in s[1..] ==> tie(s[0]) < tie(y)
  {
    forall y | y in s[1..] ensures tie(s[0]) < tie(y) {
      var k :| 0 <= k < |s[1..]| && s[1..][k] == y;
      assert s[k + 1] == y;
    }
  }

  /** Filtering keeps a strictly increasing order. */
  lemma {:induction false} FilterKeepsIncreasing<T(!new)>(s: seq<T>, p: T -> bool, tie: T -> int)
    requires IncreasingBy(s, tie)
    ensures IncreasingBy(Filter(s, p), tie)
  {
    if s != [] {
      assert IncreasingBy(s[1..], tie);
      FilterKeepsIncreasing(s[1..], p, tie);
      if p(s[0]) {
        HeadHasSmallestTie(s, tie);
        ConsIncreasing(s[0], Filter(s[1..], p), tie);
      }
    }
  }

  /** Sorted by key then tie is sorted by key. */
  lemma ThenByIsDesc<T>(s: seq<T>, key: T -> int, tie: T -> int)
    requires SortedDescThenBy(s, key, tie)
    ensures SortedDescBy(s, key)
  {
    forall i, j | 0 <= i < j < |s| ensures key(s[i]) >= key(s[j]) {
      assert Before(s[i], s[j], key, tie);
    }
  }

  /** Inserting an element whose tie is below every tie of a sequence sorted
      by key then tie keeps it so sorted: on equal keys the inserted element
      goes first. */
  lemma {:induction false} InsertIsStable<T(!new)>(x: T, t: seq<T>, key: T -> int, tie: T -> int)
    requires SortedDescThenBy(t, key, tie)
    requires forall y :: y in t ==> tie(x) < tie(y)
    ensures SortedDescBy(t, key)
    ensures SortedDescThenBy(InsertDescBy(x, t, key), key, tie)
  {
    ThenByIsDesc(t, key, tie);
    if t != [] {
      if key(t[0]) > key(x) {
        assert SortedDescThenBy(t[1..], key, tie);
        InsertIsStable(x, t[1..], key, tie);
        HeadGoesFirst(t, key, tie);
        ConsSortedThenBy(t[0], InsertDescBy(x, t[1..], key), key, tie);
      } else {
        forall y | y in t ensures Before(x, y, key, tie) {
          var k :| 0 <= k < |t| && t[k] == y;
          assert k > 0 ==> Before(t[0], t[k], key, tie);
        }
        ConsSortedThenBy(x, t, key, tie);
      }
    }
  }

  /** The sort is stable: ordered by `tie` before, equal keys keep that
      order after. */
  lemma {:induction false} SortIsStable<T(!new)>(s: seq<T>, key: T -> int, tie: T -> int)
    requires IncreasingBy(s, tie)
    ensures SortedDescThenBy(SortDescBy(s, key), key, tie)
  {
    if s != [] {
      assert s == [s[0]] + s[1..];
      SortIsStable(s[1..], key, tie);
      var rest := SortDescBy(s[1..], key);
      forall y | y in rest ensures tie(s[0]) < tie(y) {
        assert y in multiset(rest);
        assert y in multiset(s[1..]);
        var k :| 0 <= k < |s[1..]| && s[1..][k] == y;
        assert s[k + 1] == y;
      }
      InsertIsStable(s[0], rest, key, tie);
    }
  }

  /** In a sequence sorted strictly by key then tie, the tail holds every
      element but the head, and not the head. */
  lemma TailMembers<T>(s: seq<T>, key: T -> int, tie: T -> int)
    requires s != [] && SortedDescThenBy(s, key, tie)
    ensures forall x :: x in s[1..] <==> x in s && x != s[0]
  {
    forall x | x in s[1..] ensures x != s[0] {
      var k :| 0 <= k < |s[1..]| && s[1..][k] == x;
      assert s[k + 1] == x;
    }
    forall x | x in s && x != s[0] ensures x in s[1..] {
      var k :| 0 <= k < |s| && s[k] == x;
      assert s[1..][k - 1] == x;
    }
  }

  /** Sorted strictly by key then tie, a sequence is fixed by its members:
      the order such a query promises leaves no choice. */
  lemma {:induction false} SortedDescThenByIsUnique<T>(a: seq<T>, b: seq<T>, key: T -> int, tie: T -> int)
    requires SortedDescThenBy(a, key, tie) && SortedDescThenBy(b, key, tie)
    requires forall x :: x in a <==> x in b
    ensures a == b
    decreases |a|
  {
    assert b != [] ==> b[0] in a;
    if a != [] {
      assert a[0] in a;
      var i :| 0 <= i < |b| && b[i] == a[0];
      assert b[0] in b;
      var j :| 0 <= j < |a| && a[j] == b[0];
      assert a[0] == b[0];
      TailMembers(a, key, tie);
      TailMembers(b, key, tie);
      SortedDescThenByIsUnique(a[1..], b[1..], key, tie);
      assert a == [a[0]] + a[1..] && b == [b[0]] + b[1..];
    }
  }

  /** Ordered strictly by tie, a sequence is fixed by its members. */
  lemma IncreasingByIsUnique<T>(a: seq<T>, b: seq<T>, tie: T -> int)
    requires IncreasingBy(a, tie) && IncreasingBy(b, tie)
    requires forall x :: x in a <==> x in b
    ensures a == b
  {
    var flat := (x: T) => 0;
    SortedDescThenByIsUnique(a, b, flat, tie);
  }

  /** The position of the first occurrence of `x` in `s`. */
  function IndexOf<T(==)>(s: seq<T>, x: T): (i: nat)
    requires x in s
    ensures i < |s| && s[i] == x && forall j :: 0 <= j < i ==> s[j] != x
  {
    if s[0] == x then 0 else 1 + IndexOf(s[1..], x)
  }

  predicate NoDuplicates<T(==)>(s: seq<T>) {
    forall i, j :: 0 <= i < j < |s| ==> s[i] != s[j]
  }

  /** `[...new Set(s)]`: each distinct element once, in the order of its
      first appearance. */
  function Distinct<T(==,!new)>(s: seq<T>): (r: seq<T>)
    ensures NoDuplicates(r)
    ensures forall x :: x in r <==> x in s
    decreases |s|
  {
    if s == [] then []
    else
      var init := Distinct(s[..|s| - 1]);
      var last := s[|s| - 1];
      assert forall x :: x in s <==> x in s[..|s| - 1] || x == last by {
        assert s == s[..|s| - 1] + [last];
      }
      if last in init then init else init + [last]
  }

  /** The distinct elements come in the order of their first appearances. */
  lemma {:induction false} DistinctKeepsFirstAppearanceOrder<T(!new)>(s: seq<T>)
    ensures forall i, j :: 0 <= i < j < |Distinct(s)| ==>
      IndexOf(s, Distinct(s)[i]) < IndexOf(s, Distinct(s)[j])
  {
    if s != [] {
      var pre := s[..|s| - 1];
      var last := s[|s| - 1];
      DistinctKeepsFirstAppearanceOrder(pre);
      var init := Distinct(pre);
      forall x | x in pre ensures IndexOf(s, x) == IndexOf(pre, x) {
        IndexOfPrefix(pre, last, x);
      }
      assert s == pre + [last];
      if last !in init {
        assert last !in pre;
        assert IndexOf(s, last) == |s| - 1;
      }
    }
  }

  lemma {:induction false} IndexOfPrefix<T>(pre: seq<T>, y: T, x: T)
    requires x in pre
    ensures x in pre + [y] && IndexOf(pre + [y], x) == IndexOf(pre, x)
  {
    if pre[0] != x {
      assert (pre + [y])[1..] == pre[1..] + [y];
      IndexOfPrefix(pre[1..], y, x);
    }
  }
}
