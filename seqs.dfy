/**
 * Sequence operations behind the route handlers' `Array.prototype.filter`,
 * `.length` of a filtered array, `reduce((sum, x) => sum + f(x), 0)` and
 * `slice(0, n)`, with the facts the handlers' callers rely on.
 */
module Seqs {

  /** `s.filter(p)`: the elements satisfying `p`, in their original order. */
  function Filter<T>(s: seq<T>, p: T -> bool): (r: seq<T>)
    ensures |r| <= |s|
    ensures forall x <- r :: p(x)
    ensures multiset(r) <= multiset(s)
    ensures forall x <- s :: p(x) ==> multiset(r)[x] == multiset(s)[x]
  {
    if s == [] then []
    else
      var rest := Filter(s[1..], p);
      assert s == [s[0]] + s[1..];
      if p(s[0]) then [s[0]] + rest else rest
  }

  /**
   * `if (active) { s = s.filter(p) }`: one optional step of a filter chain.
   * Only elements failing an active filter go; the others keep their count.
   */
  function FilterIf<T>(s: seq<T>, active: bool, p: T -> bool): (r: seq<T>)
    ensures multiset(r) <= multiset(s)
    ensures forall x <- r :: active ==> p(x)
    ensures forall x <- s :: (active ==> p(x)) ==> multiset(r)[x] == multiset(s)[x]
  {
    if active then Filter(s, p) else s
  }

  /** Two optional filter steps in a row keep exactly what passes both active filters. */
  lemma FilterIfTwice<T>(s: seq<T>, a1: bool, p1: T -> bool, a2: bool, p2: T -> bool)
    ensures var r := FilterIf(FilterIf(s, a1, p1), a2, p2);
      && multiset(r) <= multiset(s)
      && (forall x <- r :: (a1 ==> p1(x)) && (a2 ==> p2(x)))
      && (forall x <- s :: (a1 ==> p1(x)) && (a2 ==> p2(x)) ==> multiset(r)[x] == multiset(s)[x])
  {
    var first := FilterIf(s, a1, p1);
    var r := FilterIf(first, a2, p2);
    forall x <- r
      ensures (a1 ==> p1(x)) && (a2 ==> p2(x))
    {
      assert x in multiset(first);
    }
    forall x <- s | (a1 ==> p1(x)) && (a2 ==> p2(x))
      ensures multiset(r)[x] == multiset(s)[x]
    {
      assert x in first;
    }
  }

  /** `s.filter(p).length` */
  function Count<T>(s: seq<T>, p: T -> bool): (n: nat)
    ensures n <= |s|
  {
    |Filter(s, p)|
  }

  /** `s.reduce((sum, x) => sum + f(x), 0)` over integers. */
  function Sum<T>(s: seq<T>, f: T -> int): int
  {
    if s == [] then 0 else f(s[0]) + Sum(s[1..], f)
  }

  /** `a` is `b` with some elements removed and the rest kept in order. */
  predicate Subsequence<T(==)>(a: seq<T>, b: seq<T>)
    decreases |b|
  {
    if a == [] then true
    else if b == [] then false
    else (a[0] == b[0] && Subsequence(a[1..], b[1..])) || Subsequence(a, b[1..])
  }

  /** `s.slice(0, n)` for a natural `n`: at most the first `n` elements. */
  function Take<T>(s: seq<T>, n: nat): (r: seq<T>)
    ensures |r| == if n < |s| then n else |s|
    ensures r <= s
  {
    if n < |s| then s[..n] else s
  }

  /** The first `n` elements are among the elements. */
  lemma TakeIsSubMultiset<T>(s: seq<T>, n: nat)
    ensures multiset(Take(s, n)) <= multiset(s)
  {
    var t := Take(s, n);
    assert s == t + s[|t|..];
  }

  /** Filtering never reorders: its result is a subsequence of its input. */
  lemma {:induction false} FilterIsSubsequence<T>(s: seq<T>, p: T -> bool)
    ensures Subsequence(Filter(s, p), s)
  {
    if s != [] {
      FilterIsSubsequence(s[1..], p);
      var rest := Filter(s[1..], p);
      if p(s[0]) {
        assert Filter(s, p) == [s[0]] + rest;
        assert ([s[0]] + rest)[1..] == rest;
      } else {
        SubsequenceDropHead(Filter(s, p), s);
      }
    }
  }

  lemma {:induction false} SubsequenceDropHead<T>(a: seq<T>, b: seq<T>)
    requires b != [] && Subsequence(a, b[1..])
    ensures Subsequence(a, b)
  {
  }

  /** Every sequence is a subsequence of itself. */
  lemma {:induction false} SubsequenceReflexive<T>(s: seq<T>)
    ensures Subsequence(s, s)
  {
    if s != [] {
      SubsequenceReflexive(s[1..]);
    }
  }

  /** A second filter on a filtered array is one filter on both conditions. */
  lemma {:induction false} FilterFilter<T>(s: seq<T>, p: T -> bool, q: T -> bool, pq: T -> bool)
    requires forall x :: pq(x) == (p(x) && q(x))
    ensures Filter(Filter(s, p), q) == Filter(s, pq)
  {
    if s != [] {
      FilterFilter(s[1..], p, q, pq);
      if p(s[0]) {
        assert Filter(s, p) == [s[0]] + Filter(s[1..], p);
        assert ([s[0]] + Filter(s[1..], p))[1..] == Filter(s[1..], p);
      }
    }
  }

  /** The sum over a concatenation is the sum of the sums. */
  lemma {:induction false} SumAppend<T>(a: seq<T>, b: seq<T>, f: T -> int)
    ensures Sum(a + b, f) == Sum(a, f) + Sum(b, f)
  {
    if a == [] {
      assert a + b == b;
    } else {
      SumAppend(a[1..], b, f);
      assert (a + b)[1..] == a[1..] + b;
    }
  }

  /** Summing a pointwise difference is the difference of the sums. */
  lemma {:induction false} SumDifference<T>(s: seq<T>, f: T -> int, g: T -> int, h: T -> int)
    requires forall x :: h(x) == f(x) - g(x)
    ensures Sum(s, h) == Sum(s, f) - Sum(s, g)
  {
    if s != [] {
      SumDifference(s[1..], f, g, h);
    }
  }

  /** Three conditions that split every element exactly one way count every element once. */
  lemma {:induction false} CountThreeWaySplit<T>(s: seq<T>, p: T -> bool, q: T -> bool, r: T -> bool)
    requires forall x :: (p(x) || q(x) || r(x)) && !(p(x) && q(x)) && !(p(x) && r(x)) && !(q(x) && r(x))
    ensures Count(s, p) + Count(s, q) + Count(s, r) == |s|
  {
    if s != [] {
      CountThreeWaySplit(s[1..], p, q, r);
    }
  }

  /** Filtering by a stronger condition keeps no more elements. */
  lemma {:induction false} CountMonotone<T>(s: seq<T>, p: T -> bool, q: T -> bool)
    requires forall x :: p(x) ==> q(x)
    ensures Count(s, p) <= Count(s, q)
  {
    if s != [] {
      CountMonotone(s[1..], p, q);
    }
  }

  /** Filtering an array after a `push` is filtering it before, plus the new element if it passes. */
  lemma {:induction false} FilterAppendOne<T>(s: seq<T>, x: T, p: T -> bool)
    ensures Filter(s + [x], p) == Filter(s, p) + (if p(x) then [x] else [])
  {
    if s == [] {
      assert s + [x] == [x] + [];
      FilterCons(x, [], p);
    } else {
      var head := if p(s[0]) then [s[0]] else [];
      var tail := if p(x) then [x] else [];
      var pushed := Filter(s + [x], p);
      var pushedRest := Filter(s[1..] + [x], p);
      var rest := Filter(s[1..], p);
      var whole := Filter(s, p);
      FilterAppendOne(s[1..], x, p);
      assert pushedRest == rest + tail;
      FilterPushedCons(s, x, p);
      assert pushed == head + pushedRest;
      FilterUnfold(s, p);
      assert whole == head + rest;
      Associative(head, rest, tail);
    }
  }

  lemma FilterPushedCons<T>(s: seq<T>, x: T, p: T -> bool)
    requires s != []
    ensures Filter(s + [x], p) == (if p(s[0]) then [s[0]] else []) + Filter(s[1..] + [x], p)
  {
    assert s + [x] == [s[0]] + (s[1..] + [x]);
    FilterCons(s[0], s[1..] + [x], p);
  }

  lemma FilterUnfold<T>(s: seq<T>, p: T -> bool)
    requires s != []
    ensures Filter(s, p) == (if p(s[0]) then [s[0]] else []) + Filter(s[1..], p)
  {
  }

  lemma FilterCons<T>(a: T, t: seq<T>, p: T -> bool)
    ensures Filter([a] + t, p) == (if p(a) then [a] else []) + Filter(t, p)
  {
    assert ([a] + t)[1..] == t;
  }

  lemma Associative<T>(a: seq<T>, b: seq<T>, c: seq<T>)
    ensures a + (b + c) == (a + b) + c
  {
  }
}
