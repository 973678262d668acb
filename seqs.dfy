/** Sequence helpers shared by the model: order-preserving filtering,
    pairwise orderings and string concatenation. */
module Seqs {

  /** The elements of `xs` that satisfy `p`, in their original order
      (`Array.prototype.filter`, or a `where` clause over an ordered table). */
  function Filter<T(!new)>(xs: seq<T>, p: T -> bool): (r: seq<T>)
    ensures |r| <= |xs|
    ensures forall x :: x in r <==> x in xs && p(x)
  {
    if xs == [] then [] else (if p(xs[0]) then [xs[0]] else []) + Filter(xs[1..], p)
  }

  lemma {:induction false} FilterAppend<T(!new)>(xs: seq<T>, x: T, p: T -> bool)
    ensures Filter(xs + [x], p) == Filter(xs, p) + (if p(x) then [x] else [])
  {
    if xs == [] {
      assert Filter([x], p) == (if p(x) then [x] else []) + Filter([], p);
    } else {
      assert (xs + [x])[0] == xs[0];
      assert (xs + [x])[1..] == xs[1..] + [x];
      FilterAppend(xs[1..], x, p);
    }
  }

  /** Every element comes `before` every later element. */
  ghost predicate Chain<T>(xs: seq<T>, before: (T, T) -> bool) {
    forall i, j :: 0 <= i < j < |xs| ==> before(xs[i], xs[j])
  }

  lemma ChainCons<T>(x: T, xs: seq<T>, before: (T, T) -> bool)
    requires Chain(xs, before)
    requires forall y :: y in xs ==> before(x, y)
    ensures Chain([x] + xs, before)
  {
    var ys := [x] + xs;
    forall i, j | 0 <= i < j < |ys| ensures before(ys[i], ys[j]) {
      assert ys[j] == xs[j - 1];
      if i > 0 {
        assert ys[i] == xs[i - 1];
      } else {
        assert xs[j - 1] in xs;
      }
    }
  }

  lemma ChainSnoc<T>(xs: seq<T>, x: T, before: (T, T) -> bool)
    requires Chain(xs, before)
    requires forall y :: y in xs ==> before(y, x)
    ensures Chain(xs + [x], before)
  {
    var ys := xs + [x];
    forall i, j | 0 <= i < j < |ys| ensures before(ys[i], ys[j]) {
      assert ys[i] == xs[i];
      if j < |xs| {
        assert ys[j] == xs[j];
      } else {
        assert xs[i] in xs;
      }
    }
  }

  lemma ChainSlice<T>(xs: seq<T>, lo: nat, hi: nat, before: (T, T) -> bool)
    requires lo <= hi <= |xs|
    requires Chain(xs, before)
    ensures Chain(xs[lo..hi], before)
  {
    var ys := xs[lo..hi];
    forall i, j | 0 <= i < j < |ys| ensures before(ys[i], ys[j]) {
      assert ys[i] == xs[lo + i] && ys[j] == xs[lo + j];
    }
  }

  /** Filtering keeps the relative order of what it keeps. */
  lemma {:induction false} FilterChain<T(!new)>(xs: seq<T>, p: T -> bool, before: (T, T) -> bool)
    requires Chain(xs, before)
    ensures Chain(Filter(xs, p), before)
  {
    if xs != [] {
      ChainSlice(xs, 1, |xs|, before);
      FilterChain(xs[1..], p, before);
      var rest := Filter(xs[1..], p);
      if p(xs[0]) {
        forall y | y in rest ensures before(xs[0], y) {
          var k :| 0 <= k < |xs[1..]| && xs[1..][k] == y;
          assert xs[k + 1] == y;
        }
        ChainCons(xs[0], rest, before);
      }
    }
  }

  /** The strings of `ss` written one after another (`+=` in a loop, `join("")`). */
  function Concat(ss: seq<string>): string {
    if ss == [] then "" else ss[0] + Concat(ss[1..])
  }

  lemma {:induction false} ConcatAppend(ss: seq<string>, s: string)
    ensures Concat(ss + [s]) == Concat(ss) + s
  {
    if ss == [] {
      assert [s][1..] == [];
    } else {
      assert (ss + [s])[1..] == ss[1..] + [s];
      ConcatAppend(ss[1..], s);
    }
  }
}
