/** Python floats as the analytics code meets them: an ordinary real value,
    or NaN, which pandas produces where a rolling window is incomplete.
    Every comparison involving NaN is false and NaN absorbs addition. */
module Floats {
  import opened SeqMath

  datatype Num = Finite(v: real) | NaN

  /** `a > b` on floats. */
  predicate Greater(a: Num, b: Num)
  {
    a.Finite? && b.Finite? && a.v > b.v
  }

  /** `a < b` on floats. */
  predicate Less(a: Num, b: Num)
  {
    a.Finite? && b.Finite? && a.v < b.v
  }

  /** `a + b` on floats. */
  function Plus(a: Num, b: Num): Num
  {
    if a.Finite? && b.Finite? then Finite(a.v + b.v) else NaN
  }

  /** The floats of a list of reals. */
  function Lift(xs: seq<real>): (r: seq<Num>)
    ensures |r| == |xs|
  {
    seq(|xs|, i requires 0 <= i < |xs| => Finite(xs[i]))
  }

  /** The real values of a list of floats without NaN. */
  function Reals(xs: seq<Num>): (vs: seq<real>)
    requires forall i :: 0 <= i < |xs| ==> xs[i].Finite?
    ensures |vs| == |xs|
    ensures Lift(vs) == xs
  {
    var vs := seq(|xs|, i requires 0 <= i < |xs| => xs[i].v);
    assert forall i :: 0 <= i < |xs| ==> Lift(vs)[i] == xs[i];
    vs
  }

  /** builtins.max over a list of floats: the running maximum starts at the
      first item and is replaced only by an item that compares greater. */
  function PyMax(xs: seq<Num>): (m: Num)
    requires |xs| > 0
    ensures m in xs
    ensures xs[0].NaN? ==> m.NaN?
  {
    if |xs| == 1 then xs[0]
    else
      var prev := PyMax(xs[..|xs| - 1]);
      if Greater(xs[|xs| - 1], prev) then xs[|xs| - 1] else prev
  }

  /** builtins.min over a list of floats. */
  function PyMin(xs: seq<Num>): (m: Num)
    requires |xs| > 0
    ensures m in xs
    ensures xs[0].NaN? ==> m.NaN?
  {
    if |xs| == 1 then xs[0]
    else
      var prev := PyMin(xs[..|xs| - 1]);
      if Less(xs[|xs| - 1], prev) then xs[|xs| - 1] else prev
  }

  /** builtins.sum over a list of floats, starting from 0. */
  function PySum(xs: seq<Num>): (s: Num)
    ensures (exists i :: 0 <= i < |xs| && xs[i].NaN?) ==> s.NaN?
  {
    if |xs| == 0 then Finite(0.0) else Plus(PySum(xs[..|xs| - 1]), xs[|xs| - 1])
  }

  /** `sum(xs) / len(xs)`. */
  function PyMean(xs: seq<Num>): (m: Num)
    requires |xs| > 0
    ensures (exists i :: 0 <= i < |xs| && xs[i].NaN?) ==> m.NaN?
    ensures m.Finite? ==> PySum(xs).Finite? && m.v * |xs| as real == PySum(xs).v
  {
    var s := PySum(xs);
    if s.Finite? then Finite(s.v / |xs| as real) else NaN
  }

  /** On a list without NaN, `max` is the mathematical maximum. */
  lemma {:induction false} PyMaxOfFinite(xs: seq<real>)
    requires |xs| > 0
    ensures PyMax(Lift(xs)) == Finite(Max(xs))
  {
    if |xs| > 1 {
      var init := xs[..|xs| - 1];
      assert Lift(xs)[..|xs| - 1] == Lift(init);
      PyMaxOfFinite(init);
    }
  }

  /** On a list without NaN, `min` is the mathematical minimum. */
  lemma {:induction false} PyMinOfFinite(xs: seq<real>)
    requires |xs| > 0
    ensures PyMin(Lift(xs)) == Finite(Min(xs))
  {
    if |xs| > 1 {
      var init := xs[..|xs| - 1];
      assert Lift(xs)[..|xs| - 1] == Lift(init);
      PyMinOfFinite(init);
    }
  }

  /** On a list without NaN, `sum` is the mathematical sum. */
  lemma {:induction false} PySumOfFinite(xs: seq<real>)
    ensures PySum(Lift(xs)) == Finite(Sum(xs))
  {
    if |xs| > 0 {
      var init := xs[..|xs| - 1];
      assert Lift(xs)[..|xs| - 1] == Lift(init);
      PySumOfFinite(init);
    }
  }

  /** On a list without NaN, the mean is the mathematical mean. */
  lemma PyMeanOfFinite(xs: seq<real>)
    requires |xs| > 0
    ensures PyMean(Lift(xs)) == Finite(Mean(xs))
  {
    PySumOfFinite(xs);
  }
}
