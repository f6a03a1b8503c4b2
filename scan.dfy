/** The two list scans every endpoint of the shop is built from: Python's
    `next((x for x in xs if p(x)), None)`, which finds the first element
    that satisfies a test, and the list comprehension `[x for x in xs if p(x)]`
    (or the equivalent loop with `append`), which keeps the elements that do,
    in their order. */
module Scan {
  import opened Api

  /** `i` is the position of the first element of `xs` that satisfies `p`. */
  ghost predicate IsFirst<T>(xs: seq<T>, p: T -> bool, i: int) {
    0 <= i < |xs| && p(xs[i]) && forall j :: 0 <= j < i ==> !p(xs[j])
  }

  /** The position `next(...)` stops at, or `None` when no element passes. */
  function FindFirst<T>(xs: seq<T>, p: T -> bool): (r: Option<nat>)
    ensures r.Some? ==> IsFirst(xs, p, r.value)
    ensures r.None? <==> forall j :: 0 <= j < |xs| ==> !p(xs[j])
  {
    if xs == [] then None
    else if p(xs[0]) then Some(0)
    else match FindFirst(xs[1..], p)
      case None => None
      case Some(k) => Some(k + 1)
  }

  /** There is only one first position. */
  lemma FirstIsUnique<T>(xs: seq<T>, p: T -> bool, i: int, j: int)
    requires IsFirst(xs, p, i) && IsFirst(xs, p, j)
    ensures i == j
  {
  }

  /** Appending an element never moves an existing first match; when
      there is none, the new element is the first match if it passes. */
  lemma FindFirstAppend<T>(xs: seq<T>, x: T, p: T -> bool)
    ensures FindFirst(xs + [x], p) ==
            if FindFirst(xs, p).Some? then FindFirst(xs, p)
            else if p(x) then Some(|xs|) else None
  {
    var all := xs + [x];
    var r := FindFirst(all, p);
    match FindFirst(xs, p)
    case Some(i) =>
      assert IsFirst(all, p, i);
      FirstIsUnique(all, p, i, r.value);
    case None =>
      if p(x) {
        assert IsFirst(all, p, |xs|);
        FirstIsUnique(all, p, |xs|, r.value);
      } else {
        assert forall j :: 0 <= j < |all| ==> !p(all[j]);
      }
  }

  /** The element `next(...)` returns, or `None`. */
  function First<T>(xs: seq<T>, p: T -> bool): (r: Option<T>)
    ensures r.None? <==> forall j :: 0 <= j < |xs| ==> !p(xs[j])
    ensures r.Some? ==> exists i :: IsFirst(xs, p, i) && r.value == xs[i]
  {
    match FindFirst(xs, p)
    case None => None
    case Some(i) => Some(xs[i])
  }

  /** The comprehension `[x for x in xs if p(x)]`. */
  function Filter<T(==)>(xs: seq<T>, p: T -> bool): (r: seq<T>)
    ensures |r| <= |xs|
    ensures forall i :: 0 <= i < |r| ==> r[i] in xs && p(r[i])
    ensures forall i :: 0 <= i < |xs| && p(xs[i]) ==> xs[i] in r
  {
    if xs == [] then []
    else (if p(xs[0]) then [xs[0]] else []) + Filter(xs[1..], p)
  }

  /** Filtering keeps every copy of a passing element and no copy of a
      failing one: the result counts each value as often as the input does
      when it passes, and never otherwise. */
  lemma {:induction false} FilterCounts<T>(xs: seq<T>, p: T -> bool, x: T)
    ensures multiset(Filter(xs, p))[x] == if p(x) then multiset(xs)[x] else 0
  {
    if xs != [] {
      FilterCounts(xs[1..], p, x);
      var head := if p(xs[0]) then [xs[0]] else [];
      assert xs == [xs[0]] + xs[1..];
      assert multiset(xs) == multiset([xs[0]]) + multiset(xs[1..]);
      assert multiset(Filter(xs, p)) == multiset(head) + multiset(Filter(xs[1..], p));
    }
  }

  /** `FilterCounts` for every value at once. */
  lemma FilterCountsAll<T>(xs: seq<T>, p: T -> bool)
    ensures forall x :: multiset(Filter(xs, p))[x] == if p(x) then multiset(xs)[x] else 0
  {
    forall x
      ensures multiset(Filter(xs, p))[x] == if p(x) then multiset(xs)[x] else 0
    {
      FilterCounts(xs, p, x);
    }
  }

  /** `r` is `xs` with some elements dropped and the others in their order. */
  predicate IsSubsequence<T(==)>(r: seq<T>, xs: seq<T>)
    decreases |xs|
  {
    if r == [] then true
    else if xs == [] then false
    else (r[0] == xs[0] && IsSubsequence(r[1..], xs[1..])) || IsSubsequence(r, xs[1..])
  }

  /** Every list is a subsequence of itself. */
  lemma {:induction false} SubsequenceOfItself<T>(xs: seq<T>)
    ensures IsSubsequence(xs, xs)
  {
    if xs != [] {
      SubsequenceOfItself(xs[1..]);
    }
  }

  /** Filtering keeps the order: the result is a subsequence of the input. */
  lemma {:induction false} FilterIsSubsequence<T>(xs: seq<T>, p: T -> bool)
    ensures IsSubsequence(Filter(xs, p), xs)
  {
    if xs != [] {
      FilterIsSubsequence(xs[1..], p);
      if p(xs[0]) {
        var r := Filter(xs, p);
        assert r[0] == xs[0] && r[1..] == Filter(xs[1..], p);
      } else {
        assert Filter(xs, p) == Filter(xs[1..], p);
      }
    }
  }

  /** Filtering a concatenation is concatenating the filtered parts; with a
      one-element `ys` this is the step of the loop that appends. */
  lemma {:induction false} FilterConcat<T>(xs: seq<T>, ys: seq<T>, p: T -> bool)
    ensures Filter(xs + ys, p) == Filter(xs, p) + Filter(ys, p)
  {
    if xs == [] {
      assert xs + ys == ys;
    } else {
      var head := if p(xs[0]) then [xs[0]] else [];
      calc {
        Filter(xs + ys, p);
        { assert (xs + ys)[0] == xs[0] && (xs + ys)[1..] == xs[1..] + ys; }
        head + Filter(xs[1..] + ys, p);
        { FilterConcat(xs[1..], ys, p); }
        head + (Filter(xs[1..], p) + Filter(ys, p));
        (head + Filter(xs[1..], p)) + Filter(ys, p);
      }
    }
  }

  /** Two tests that agree on every element keep the same elements. */
  lemma {:induction false} FilterSameTest<T>(xs: seq<T>, p: T -> bool, q: T -> bool)
    requires forall i :: 0 <= i < |xs| ==> p(xs[i]) == q(xs[i])
    ensures Filter(xs, p) == Filter(xs, q)
  {
    if xs != [] {
      FilterSameTest(xs[1..], p, q);
    }
  }

  /** A test every element passes keeps the whole list. */
  lemma {:induction false} FilterAllPass<T>(xs: seq<T>, p: T -> bool)
    requires forall i :: 0 <= i < |xs| ==> p(xs[i])
    ensures Filter(xs, p) == xs
  {
    if xs != [] {
      FilterAllPass(xs[1..], p);
    }
  }

  /** A test no element passes keeps nothing. */
  lemma {:induction false} FilterNonePass<T>(xs: seq<T>, p: T -> bool)
    requires forall i :: 0 <= i < |xs| ==> !p(xs[i])
    ensures Filter(xs, p) == []
  {
    if xs != [] {
      FilterNonePass(xs[1..], p);
    }
  }

  /** When no element from position `n` on passes, filtering the whole list
      is filtering its first `n` elements. */
  lemma {:induction false} FilterNoneAfter<T>(xs: seq<T>, p: T -> bool, n: nat)
    requires n <= |xs|
    requires forall i :: n <= i < |xs| ==> !p(xs[i])
    ensures Filter(xs, p) == Filter(xs[..n], p)
  {
    if n == 0 {
      FilterNonePass(xs, p);
    } else {
      FilterNoneAfter(xs[1..], p, n - 1);
      assert xs[..n][0] == xs[0] && xs[..n][1..] == xs[1..][..n - 1];
    }
  }
}
