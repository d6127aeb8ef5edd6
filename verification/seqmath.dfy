/** Sums, extremes, means and running totals over sequences of reals. Every
    fold walks the sequence left to right, in the order in which the Python
    loops and builtins `sum`, `max` and `min` visit a list. */
module SeqMath {

  /** Left-to-right sum; the empty sum is 0. */
  function Sum(xs: seq<real>): real
  {
    if |xs| == 0 then 0.0 else Sum(xs[..|xs| - 1]) + xs[|xs| - 1]
  }

  /** Appending one element adds it to the sum. */
  lemma SumAppend(xs: seq<real>, x: real)
    ensures Sum(xs + [x]) == Sum(xs) + x
  {
    assert (xs + [x])[..|xs|] == xs;
  }

  /** A sum of n terms, each at least lo, is at least n*lo. */
  lemma {:induction false} SumAtLeast(xs: seq<real>, lo: real)
    requires forall i :: 0 <= i < |xs| ==> lo <= xs[i]
    ensures |xs| as real * lo <= Sum(xs)
  {
    if |xs| > 0 {
      SumAtLeast(xs[..|xs| - 1], lo);
    }
  }

  /** A sum of n terms, each at most hi, is at most n*hi. */
  lemma {:induction false} SumAtMost(xs: seq<real>, hi: real)
    requires forall i :: 0 <= i < |xs| ==> xs[i] <= hi
    ensures Sum(xs) <= |xs| as real * hi
  {
    if |xs| > 0 {
      SumAtMost(xs[..|xs| - 1], hi);
    }
  }

  /** The largest element, found as `max` does: the running maximum is
      replaced only by an element strictly greater than it. */
  function Max(xs: seq<real>): (m: real)
    requires |xs| > 0
    ensures m in xs
    ensures forall i :: 0 <= i < |xs| ==> xs[i] <= m
  {
    if |xs| == 1 then xs[0]
    else
      var prev := Max(xs[..|xs| - 1]);
      if xs[|xs| - 1] > prev then xs[|xs| - 1] else prev
  }

  /** The smallest element, found as `min` does. */
  function Min(xs: seq<real>): (m: real)
    requires |xs| > 0
    ensures m in xs
    ensures forall i :: 0 <= i < |xs| ==> m <= xs[i]
  {
    if |xs| == 1 then xs[0]
    else
      var prev := Min(xs[..|xs| - 1]);
      if xs[|xs| - 1] < prev then xs[|xs| - 1] else prev
  }

  /** The arithmetic mean, `sum(xs) / len(xs)`. */
  function Mean(xs: seq<real>): (m: real)
    requires |xs| > 0
    ensures m * |xs| as real == Sum(xs)
  {
    Sum(xs) / |xs| as real
  }

  /** The mean of a non-empty sequence lies between its minimum and maximum. */
  lemma MeanBetweenExtremes(xs: seq<real>)
    requires |xs| > 0
    ensures Min(xs) <= Mean(xs) <= Max(xs)
  {
    MeanAtLeast(xs, Min(xs));
    MeanAtMost(xs, Max(xs));
  }

  /** A mean is at least any lower bound of the terms. */
  lemma MeanAtLeast(xs: seq<real>, lo: real)
    requires |xs| > 0
    requires forall i :: 0 <= i < |xs| ==> lo <= xs[i]
    ensures lo <= Mean(xs)
  {
    var n, total := |xs| as real, Sum(xs);
    assert n * lo <= total by {
      SumAtLeast(xs, lo);
    }
    assert total / n * n == total;
  }

  /** A mean is at most any upper bound of the terms. */
  lemma MeanAtMost(xs: seq<real>, hi: real)
    requires |xs| > 0
    requires forall i :: 0 <= i < |xs| ==> xs[i] <= hi
    ensures Mean(xs) <= hi
  {
    var n, total := |xs| as real, Sum(xs);
    assert total <= n * hi by {
      SumAtMost(xs, hi);
    }
    assert total / n * n == total;
  }

  /** The running totals of a sequence: element k is the sum of the first
      k + 1 elements. */
  function PrefixSums(xs: seq<real>): (ps: seq<real>)
    ensures |ps| == |xs|
  {
    seq(|xs|, k requires 0 <= k < |xs| => Sum(xs[..k + 1]))
  }

  /** Appending x extends the running totals by the new grand total. */
  lemma PrefixSumsAppend(xs: seq<real>, x: real)
    ensures PrefixSums(xs + [x]) == PrefixSums(xs) + [Sum(xs) + x]
  {
    var ys := xs + [x];
    forall k | 0 <= k < |xs|
      ensures PrefixSums(ys)[k] == PrefixSums(xs)[k]
    {
      assert ys[..k + 1] == xs[..k + 1];
    }
    assert ys[..|ys|] == ys;
    SumAppend(xs, x);
  }

  /** The last running total is the sum of the whole sequence. */
  lemma PrefixSumsLast(xs: seq<real>)
    requires |xs| > 0
    ensures PrefixSums(xs)[|xs| - 1] == Sum(xs)
  {
    assert xs[..|xs|] == xs;
  }

  /** Running totals of non-negative terms never decrease. */
  lemma {:induction false} PrefixSumsNonDecreasing(xs: seq<real>)
    requires forall i :: 0 <= i < |xs| ==> xs[i] >= 0.0
    ensures forall i, j :: 0 <= i <= j < |xs| ==> PrefixSums(xs)[i] <= PrefixSums(xs)[j]
  {
    if |xs| > 0 {
      var init := xs[..|xs| - 1];
      PrefixSumsNonDecreasing(init);
      PrefixSumsAppend(init, xs[|xs| - 1]);
      assert init + [xs[|xs| - 1]] == xs;
      var ps := PrefixSums(xs);
      if |init| > 0 {
        PrefixSumsLast(init);
        assert ps[|xs| - 2] <= ps[|xs| - 1];
      }
      forall i, j | 0 <= i <= j < |xs|
        ensures ps[i] <= ps[j]
      {
        if j == |xs| - 1 && i < j {
          assert ps[i] <= ps[|xs| - 2];
        }
      }
    }
  }
}
