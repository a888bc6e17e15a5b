/**
 * Generic list operations shared by the three ledgers.
 *
 * The finance pages delete and select with `Array.prototype.filter`,
 * update with `Array.prototype.map`, total with `Array.prototype.reduce`
 * and create by spreading the old list around the new record. `Filter`
 * and `Sum` below are `filter` and `reduce` as pure functions; the
 * per-record `map` steps and the spreads are written out where they are
 * used.
 */
module Seqs {

  /** `a` is obtained from `b` by deleting zero or more elements:
      the elements of `a` occur in `b` in the same order. */
  predicate IsSubsequence<T(==)>(a: seq<T>, b: seq<T>)
    decreases |b|
  {
    if |a| == 0 then true
    else if |b| == 0 then false
    else (a[0] == b[0] && IsSubsequence(a[1..], b[1..])) || IsSubsequence(a, b[1..])
  }

  /** `Array.prototype.filter`: keeps, in order, exactly the elements
      satisfying `keep`, each occurrence as often as it occurs in `s`. */
  function Filter<T(==,!new)>(s: seq<T>, keep: T -> bool): (r: seq<T>)
    ensures |r| <= |s|
    ensures forall i :: 0 <= i < |r| ==> keep(r[i])
    ensures forall x :: x in r <==> x in s && keep(x)
    ensures forall x :: multiset(r)[x] == if keep(x) then multiset(s)[x] else 0
    ensures IsSubsequence(r, s)
  {
    if |s| == 0 then []
    else
      var rest := Filter(s[1..], keep);
      assert s == [s[0]] + s[1..];
      if keep(s[0]) then
        var r := [s[0]] + rest;
        assert r[1..] == rest;
        r
      else rest
  }

  /** `Array.prototype.reduce((sum, x) => sum + f(x), 0)` over exact reals.
      JavaScript folds from the left; real addition is associative and
      commutative, so folding from the front gives the same value. */
  function Sum<T>(s: seq<T>, f: T -> real): real
  {
    if |s| == 0 then 0.0 else f(s[0]) + Sum(s[1..], f)
  }

  lemma {:induction false} SumAppend<T>(s: seq<T>, x: T, f: T -> real)
    ensures Sum(s + [x], f) == Sum(s, f) + f(x)
  {
    if |s| == 0 {
      assert s + [x] == [x];
    } else {
      assert (s + [x])[1..] == s[1..] + [x];
      SumAppend(s[1..], x, f);
    }
  }

  /** A pointwise bound on the summands bounds the sums. */
  lemma {:induction false} SumMonotone<T>(s: seq<T>, f: T -> real, g: T -> real)
    requires forall i :: 0 <= i < |s| ==> f(s[i]) <= g(s[i])
    ensures Sum(s, f) <= Sum(s, g)
  {
    if |s| > 0 {
      SumMonotone(s[1..], f, g);
    }
  }

  lemma {:induction false} SumNonPositive<T>(s: seq<T>, f: T -> real)
    requires forall i :: 0 <= i < |s| ==> f(s[i]) <= 0.0
    ensures Sum(s, f) <= 0.0
  {
    if |s| > 0 {
      SumNonPositive(s[1..], f);
    }
  }

  /** Splitting a list by a predicate splits its sum: what a filter
      removes is exactly what the complementary filter keeps. */
  lemma {:induction false} SumPartition<T(!new)>(s: seq<T>, keep: T -> bool, drop: T -> bool, f: T -> real)
    requires forall x :: drop(x) <==> !keep(x)
    ensures Sum(s, f) == Sum(Filter(s, keep), f) + Sum(Filter(s, drop), f)
  {
    if |s| > 0 {
      SumPartition(s[1..], keep, drop, f);
      if keep(s[0]) {
        assert Filter(s, keep) == [s[0]] + Filter(s[1..], keep);
        assert Filter(s, drop) == Filter(s[1..], drop);
      } else {
        assert Filter(s, keep) == Filter(s[1..], keep);
        assert Filter(s, drop) == [s[0]] + Filter(s[1..], drop);
      }
    }
  }

  /** The search `Array.prototype.find` performs: the first position
      whose element satisfies `p`, or -1 when none does. `find` returns
      the element at that position, or `undefined` for -1. */
  function FindIndex<T>(s: seq<T>, p: T -> bool): (k: int)
    ensures -1 <= k < |s|
    ensures k == -1 <==> forall i :: 0 <= i < |s| ==> !p(s[i])
    ensures 0 <= k ==> p(s[k]) && forall i :: 0 <= i < k ==> !p(s[i])
  {
    if |s| == 0 then -1
    else if p(s[0]) then 0
    else
      var k := FindIndex(s[1..], p);
      if k == -1 then -1 else k + 1
  }

  /** A filter that rejects nothing returns the list unchanged. */
  lemma {:induction false} FilterKeepsAll<T(!new)>(s: seq<T>, keep: T -> bool)
    requires forall i :: 0 <= i < |s| ==> keep(s[i])
    ensures Filter(s, keep) == s
  {
    if |s| > 0 {
      FilterKeepsAll(s[1..], keep);
      assert s == [s[0]] + s[1..];
    }
  }

  lemma {:induction false} FilterAppend<T(!new)>(s: seq<T>, t: seq<T>, keep: T -> bool)
    ensures Filter(s + t, keep) == Filter(s, keep) + Filter(t, keep)
  {
    if |s| == 0 {
      assert s + t == t;
    } else {
      assert (s + t)[1..] == s[1..] + t;
      FilterAppend(s[1..], t, keep);
    }
  }
}
