/** Array built-ins of the source language (filter, a numeric reduce, includes)
    as functions on sequences, with the facts the rest of the model relies on. */
module Seqs {

  /** `s.filter(p)`: the elements satisfying `p`, in their original order. */
  function Filter<T(!new)>(s: seq<T>, p: T -> bool): (r: seq<T>)
    ensures |r| <= |s|
    ensures forall x :: x in r <==> x in s && p(x)
  {
    if |s| == 0 then []
    else
      var init := s[..|s| - 1];
      assert s == init + [s[|s| - 1]];
      Filter(init, p) + (if p(s[|s| - 1]) then [s[|s| - 1]] else [])
  }

  lemma {:induction false} FilterAppend<T(!new)>(a: seq<T>, b: seq<T>, p: T -> bool)
    ensures Filter(a + b, p) == Filter(a, p) + Filter(b, p)
    decreases |b|
  {
    if |b| == 0 {
      assert a + b == a;
    } else {
      var b', x := b[..|b| - 1], b[|b| - 1];
      var tail := if p(x) then [x] else [];
      assert (a + b)[..|a + b| - 1] == a + b';
      assert (a + b)[|a + b| - 1] == x;
      assert Filter(a + b, p) == Filter(a + b', p) + tail;
      assert Filter(b, p) == Filter(b', p) + tail;
      FilterAppend(a, b', p);
    }
  }

  /** Nothing is kept when nothing satisfies `p`. */
  lemma {:induction false} FilterNone<T(!new)>(s: seq<T>, p: T -> bool)
    requires forall i :: 0 <= i < |s| ==> !p(s[i])
    ensures Filter(s, p) == []
  {
    if |s| > 0 {
      FilterNone(s[..|s| - 1], p);
    }
  }

  /** Everything is kept when everything satisfies `p`. */
  lemma {:induction false} FilterAll<T(!new)>(s: seq<T>, p: T -> bool)
    requires forall i :: 0 <= i < |s| ==> p(s[i])
    ensures Filter(s, p) == s
  {
    if |s| > 0 {
      FilterAll(s[..|s| - 1], p);
    }
  }

  /** `s.reduce((sum, x) => sum + f(x), 0)`. */
  function Sum<T>(s: seq<T>, f: T -> int): int
  {
    if |s| == 0 then 0 else Sum(s[..|s| - 1], f) + f(s[|s| - 1])
  }

  lemma {:induction false} SumAppend<T>(a: seq<T>, b: seq<T>, f: T -> int)
    ensures Sum(a + b, f) == Sum(a, f) + Sum(b, f)
    decreases |b|
  {
    if |b| == 0 {
      assert a + b == a;
    } else {
      var b' := b[..|b| - 1];
      assert (a + b)[..|a + b| - 1] == a + b';
      SumAppend(a, b', f);
    }
  }

  lemma {:induction false} SumNonNegative<T>(s: seq<T>, f: T -> int)
    requires forall x :: x in s ==> f(x) >= 0
    ensures Sum(s, f) >= 0
  {
    if |s| > 0 {
      assert forall x :: x in s[..|s| - 1] ==> x in s;
      SumNonNegative(s[..|s| - 1], f);
    }
  }

  /** Summing only the elements selected by `p` is the same as summing the
      filtered sequence: the two ways the source writes a conditional total. */
  function SumWhere<T(!new)>(s: seq<T>, p: T -> bool, f: T -> int): (r: int)
    ensures r == Sum(Filter(s, p), f)
  {
    if |s| == 0 then 0
    else
      var init := s[..|s| - 1];
      var x := s[|s| - 1];
      assert s == init + [x];
      assert Filter(s, p) == Filter(init, p) + (if p(x) then [x] else []);
      SumAppend(Filter(init, p), if p(x) then [x] else [], f);
      assert Sum([x], f) == f(x) by { assert [x][..0] == []; }
      SumWhere(init, p, f) + (if p(x) then f(x) else 0)
  }

  /** Splitting a total by a condition and its negation loses nothing. */
  lemma {:induction false} SumWhereSplit<T(!new)>(s: seq<T>, p: T -> bool, q: T -> bool, f: T -> int)
    requires forall x :: q(x) == !p(x)
    ensures SumWhere(s, p, f) + SumWhere(s, q, f) == Sum(s, f)
  {
    if |s| > 0 {
      SumWhereSplit(s[..|s| - 1], p, q, f);
    }
  }

  /** One more element adds its value when it is selected. */
  lemma SumWhereSnoc<T(!new)>(s: seq<T>, x: T, p: T -> bool, f: T -> int)
    ensures SumWhere(s + [x], p, f) == SumWhere(s, p, f) + if p(x) then f(x) else 0
  {
    assert (s + [x])[..|s|] == s;
  }

  /** One more element of `s` extends its prefix by that element. */
  lemma PrefixSnoc<T>(s: seq<T>, i: nat)
    requires i < |s|
    ensures s[..i + 1] == s[..i] + [s[i]]
    ensures s[..i + 1][..i] == s[..i]
  {
  }

  /** Elements are pairwise distinct. */
  predicate Distinct<T(==)>(s: seq<T>)
  {
    forall i, j :: 0 <= i < j < |s| ==> s[i] != s[j]
  }

  /** A new element in front keeps a sequence free of repeats. */
  lemma DistinctCons<T>(x: T, s: seq<T>)
    requires x !in s && Distinct(s)
    ensures Distinct([x] + s)
  {
    forall i, j | 0 <= i < j < |[x] + s|
      ensures ([x] + s)[i] != ([x] + s)[j]
    {
      if i == 0 {
        assert ([x] + s)[j] == s[j - 1];
      }
    }
  }

  lemma {:induction false} FilterKeepsDistinct<T(!new)>(s: seq<T>, p: T -> bool)
    requires Distinct(s)
    ensures Distinct(Filter(s, p))
  {
    if |s| > 0 {
      var init, x := s[..|s| - 1], s[|s| - 1];
      assert Distinct(init);
      FilterKeepsDistinct(init, p);
      assert x !in init;
      assert x !in Filter(init, p);
    }
  }

  /** Ascending order. */
  predicate Sorted(s: seq<int>)
  {
    forall i, j :: 0 <= i < j < |s| ==> s[i] <= s[j]
  }

  function Max(s: seq<int>): (m: int)
    requires |s| > 0
    ensures m in s && forall x :: x in s ==> x <= m
  {
    if |s| == 1 then s[0]
    else
      var init, last := s[..|s| - 1], s[|s| - 1];
      var m' := Max(init);
      assert s == init + [last];
      assert forall x :: x in s ==> x in init || x == last;
      assert forall x :: x in init ==> x <= m';
      if last > m' then last else m'
  }

  function Min(s: seq<int>): (m: int)
    requires |s| > 0
    ensures m in s && forall x :: x in s ==> m <= x
  {
    if |s| == 1 then s[0]
    else
      var init, last := s[..|s| - 1], s[|s| - 1];
      var m' := Min(init);
      assert s == init + [last];
      assert forall x :: x in s ==> x in init || x == last;
      assert forall x :: x in init ==> m' <= x;
      if last < m' then last else m'
  }

  /** A sorted rearrangement of `s` starts at its minimum and ends at its maximum. */
  lemma SortedEnds(a: seq<int>, s: seq<int>)
    requires |s| > 0 && Sorted(a) && multiset(a) == multiset(s)
    ensures |a| == |s| && a[0] == Min(s) && a[|a| - 1] == Max(s)
  {
    assert |a| == |multiset(a)| == |multiset(s)| == |s|;
    var lo, hi := Min(s), Max(s);
    assert lo in multiset(s) && hi in multiset(s);
    assert lo in a && hi in a;
    assert a[0] in multiset(a) && a[|a| - 1] in multiset(a);
    assert a[0] in s && a[|a| - 1] in s;
    assert a[0] <= lo && hi <= a[|a| - 1];
  }
}
