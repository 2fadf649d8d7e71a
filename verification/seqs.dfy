/**
 * Order-preserving filtering, mapping and summing over sequences: the list
 * comprehensions and `sum(...)` generators of the backend and the
 * `Array.filter` calls of the client.
 */
module Seqs {
  /** The elements of xs that satisfy p, in their original order. */
  function Filter<T>(xs: seq<T>, p: T -> bool): (r: seq<T>)
    ensures |r| <= |xs|
    ensures forall i :: 0 <= i < |r| ==> r[i] in xs && p(r[i])
    ensures forall i :: 0 <= i < |xs| && p(xs[i]) ==> xs[i] in r
  {
    if xs == [] then []
    else (if p(xs[0]) then [xs[0]] else []) + Filter(xs[1..], p)
  }

  /** Filtering distributes over concatenation, so a left-to-right scan can build it. */
  lemma {:induction false} FilterAppend<T>(xs: seq<T>, ys: seq<T>, p: T -> bool)
    ensures Filter(xs + ys, p) == Filter(xs, p) + Filter(ys, p)
  {
    if xs == [] {
      assert xs + ys == ys;
    } else {
      assert (xs + ys)[0] == xs[0];
      assert (xs + ys)[1..] == xs[1..] + ys;
      FilterAppend(xs[1..], ys, p);
    }
  }

  /** ys is xs read at the strictly increasing positions idx. */
  ghost predicate SubsequenceAt<T>(xs: seq<T>, ys: seq<T>, idx: seq<nat>)
  {
    && |idx| == |ys|
    && (forall k :: 0 <= k < |idx| ==> idx[k] < |xs| && ys[k] == xs[idx[k]])
    && (forall k, l :: 0 <= k < l < |idx| ==> idx[k] < idx[l])
  }

  /**
   * The positions in xs that Filter keeps: the filtered sequence is a
   * subsequence of xs in its original order.
   */
  function Positions<T>(xs: seq<T>, p: T -> bool): (idx: seq<nat>)
    ensures SubsequenceAt(xs, Filter(xs, p), idx)
  {
    if xs == [] then []
    else
      var rest := Positions(xs[1..], p);
      var tail := Filter(xs[1..], p);
      if p(xs[0]) then
        assert Filter(xs, p) == [xs[0]] + tail;
        SubsequenceCons(xs, tail, rest);
        [0] + Shift(rest)
      else
        assert Filter(xs, p) == tail;
        SubsequenceShift(xs, tail, rest);
        Shift(rest)
  }

  function Shift(idx: seq<nat>): (r: seq<nat>)
    ensures |r| == |idx|
    ensures forall k :: 0 <= k < |idx| ==> r[k] == idx[k] + 1
  {
    seq(|idx|, k requires 0 <= k < |idx| => idx[k] + 1)
  }

  /** Seen from xs, the positions found in xs[1..] are one further on. */
  lemma {:induction false} SubsequenceShift<T>(xs: seq<T>, ys: seq<T>, idx: seq<nat>)
    requires xs != [] && SubsequenceAt(xs[1..], ys, idx)
    ensures SubsequenceAt(xs, ys, Shift(idx))
  {
    var sh := Shift(idx);
    forall k | 0 <= k < |idx| ensures sh[k] < |xs| && ys[k] == xs[sh[k]] {
      assert xs[1..][idx[k]] == xs[idx[k] + 1];
    }
  }

  /** Keeping the front element as well adds position 0. */
  lemma {:induction false} SubsequenceCons<T>(xs: seq<T>, ys: seq<T>, idx: seq<nat>)
    requires xs != [] && SubsequenceAt(xs[1..], ys, idx)
    ensures SubsequenceAt(xs, [xs[0]] + ys, [0] + Shift(idx))
  {
    SubsequenceShift(xs, ys, idx);
    var sh := Shift(idx);
    var j := [0] + sh;
    var zs := [xs[0]] + ys;
    forall k | 0 < k < |j| ensures j[k] < |xs| && zs[k] == xs[j[k]] {
      assert j[k] == sh[k - 1] && zs[k] == ys[k - 1];
    }
  }

  function Map<T, U>(xs: seq<T>, f: T -> U): (r: seq<U>)
    ensures |r| == |xs|
    ensures forall i :: 0 <= i < |xs| ==> r[i] == f(xs[i])
  {
    seq(|xs|, i requires 0 <= i < |xs| => f(xs[i]))
  }

  /** `sum(f(x) for x in xs)`. */
  function SumOf<T>(xs: seq<T>, f: T -> real): real
  {
    if xs == [] then 0.0 else f(xs[0]) + SumOf(xs[1..], f)
  }

  lemma {:induction false} SumOfAppend<T>(xs: seq<T>, ys: seq<T>, f: T -> real)
    ensures SumOf(xs + ys, f) == SumOf(xs, f) + SumOf(ys, f)
  {
    if xs == [] {
      assert xs + ys == ys;
    } else {
      assert (xs + ys)[0] == xs[0];
      assert (xs + ys)[1..] == xs[1..] + ys;
      SumOfAppend(xs[1..], ys, f);
    }
  }

  /**
   * Splitting a sum by a predicate loses nothing: the part that satisfies p
   * and the part that satisfies q add up to the whole when every element
   * satisfies exactly one of them.
   */
  lemma {:induction false} SumOfPartition<T>(xs: seq<T>, f: T -> real, p: T -> bool, q: T -> bool)
    requires forall i :: 0 <= i < |xs| ==> p(xs[i]) != q(xs[i])
    ensures SumOf(Filter(xs, p), f) + SumOf(Filter(xs, q), f) == SumOf(xs, f)
  {
    if xs != [] {
      var rest := xs[1..];
      assert forall i :: 0 <= i < |rest| ==> rest[i] == xs[i + 1];
      SumOfPartition(rest, f, p, q);
      SumOfAppend(if p(xs[0]) then [xs[0]] else [], Filter(rest, p), f);
      SumOfAppend(if q(xs[0]) then [xs[0]] else [], Filter(rest, q), f);
      assert SumOf([xs[0]], f) == f(xs[0]);
    }
  }

  /** The first n elements, or all of them: `.limit(n)` for n > 0, and `s[:n]` in Python. */
  function Take<T>(xs: seq<T>, n: nat): (r: seq<T>)
    ensures |r| == if n < |xs| then n else |xs|
    ensures r <= xs
  {
    if n < |xs| then xs[..n] else xs
  }
}
