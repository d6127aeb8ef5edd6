/** The speed smoother `smooth_speed_data` (identical in pages/overview.py and
    simple_overview.py): a pandas centred rolling mean over a window of five,
    followed by a backward fill and then a forward fill of the NaN gaps. */
module Smoothing {
  import opened SeqMath
  import opened Floats

  /** The rolling window size. */
  const Window: nat := 5

  /** The number of samples on each side of the centre of a window. */
  const Half: nat := 2

  /** Centred rolling mean with pandas' default minimum of `Window`
      observations: NaN wherever the centred window does not fit. */
  function RollingMean(s: seq<real>): (r: seq<Num>)
    ensures |r| == |s|
  {
    seq(|s|, i requires 0 <= i < |s| =>
      if Half <= i < |s| - Half then Finite(Sum(s[i - Half..i + Half + 1]) / Window as real) else NaN)
  }

  /** `fillna(method='bfill')`: every NaN takes the value that follows it,
      so a NaN followed only by NaNs stays NaN. */
  function BackFill(xs: seq<Num>): (r: seq<Num>)
    ensures |r| == |xs|
    ensures forall i :: 0 <= i < |xs| && xs[i].Finite? ==> r[i] == xs[i]
    ensures forall i :: 0 <= i < |xs| - 1 && xs[i].NaN? ==> r[i] == r[i + 1]
    ensures |xs| > 0 && xs[|xs| - 1].NaN? ==> r[|xs| - 1].NaN?
  {
    if |xs| == 0 then []
    else
      var rest := BackFill(xs[1..]);
      [if xs[0].NaN? && |rest| > 0 then rest[0] else xs[0]] + rest
  }

  /** `fillna(method='ffill')`: every NaN takes the value that precedes it,
      so a NaN preceded only by NaNs stays NaN. */
  function ForwardFill(xs: seq<Num>): (r: seq<Num>)
    ensures |r| == |xs|
    ensures forall i :: 0 <= i < |xs| && xs[i].Finite? ==> r[i] == xs[i]
    ensures forall i :: 0 < i < |xs| && xs[i].NaN? ==> r[i] == r[i - 1]
    ensures |xs| > 0 && xs[0].NaN? ==> r[0].NaN?
  {
    if |xs| == 0 then []
    else
      var init := ForwardFill(xs[..|xs| - 1]);
      var last := xs[|xs| - 1];
      init + [if last.NaN? && |init| > 0 then init[|init| - 1] else last]
  }

  /** Reference definition of a backward fill: the first non-NaN value at or
      after position i, or NaN when there is none. */
  function NextValid(xs: seq<Num>, i: nat): Num
    requires i <= |xs|
    decreases |xs| - i
  {
    if i == |xs| then NaN
    else if xs[i].Finite? then xs[i]
    else NextValid(xs, i + 1)
  }

  /** Reference definition of a forward fill: the last non-NaN value at or
      before position i - 1, or NaN when there is none. */
  function PrevValid(xs: seq<Num>, i: nat): Num
    requires i <= |xs|
  {
    if i == 0 then NaN
    else if xs[i - 1].Finite? then xs[i - 1]
    else PrevValid(xs, i - 1)
  }

  /** The backward fill puts at each position the next valid value. */
  lemma {:induction false} BackFillIsNextValid(xs: seq<Num>, i: nat)
    requires i < |xs|
    ensures BackFill(xs)[i] == NextValid(xs, i)
    decreases |xs| - i
  {
    if i < |xs| - 1 && xs[i].NaN? {
      BackFillIsNextValid(xs, i + 1);
    }
  }

  /** The forward fill puts at each position the last valid value up to it. */
  lemma {:induction false} ForwardFillIsPrevValid(xs: seq<Num>, i: nat)
    requires i < |xs|
    ensures ForwardFill(xs)[i] == PrevValid(xs, i + 1)
  {
    if 0 < i && xs[i].NaN? {
      ForwardFillIsPrevValid(xs, i - 1);
    }
  }

  /** An all-NaN series stays all NaN under the backward fill. */
  lemma {:induction false} BackFillAllNaN(xs: seq<Num>)
    requires forall i :: 0 <= i < |xs| ==> xs[i].NaN?
    ensures forall i :: 0 <= i < |xs| ==> BackFill(xs)[i].NaN?
  {
    forall i | 0 <= i < |xs|
      ensures BackFill(xs)[i].NaN?
    {
      BackFillIsNextValid(xs, i);
      NextValidAllNaN(xs, i);
    }
  }

  lemma {:induction false} NextValidAllNaN(xs: seq<Num>, i: nat)
    requires i <= |xs|
    requires forall k :: i <= k < |xs| ==> xs[k].NaN?
    ensures NextValid(xs, i).NaN?
    decreases |xs| - i
  {
    if i < |xs| {
      NextValidAllNaN(xs, i + 1);
    }
  }

  /** An all-NaN series stays all NaN under the forward fill. */
  lemma {:induction false} ForwardFillAllNaN(xs: seq<Num>)
    requires forall i :: 0 <= i < |xs| ==> xs[i].NaN?
    ensures forall i :: 0 <= i < |xs| ==> ForwardFill(xs)[i].NaN?
  {
    if |xs| > 0 {
      var init := xs[..|xs| - 1];
      ForwardFillAllNaN(init);
      assert ForwardFill(xs)[..|xs| - 1] == ForwardFill(init);
    }
  }

  /** The sum of five values, folded left to right. */
  lemma SumOfFive(a: real, b: real, c: real, d: real, e: real)
    ensures Sum([a, b, c, d, e]) == a + b + c + d + e
  {
    assert [a][..0] == [];
    assert Sum([a]) == a;
    assert [a, b][..1] == [a];
    assert Sum([a, b]) == a + b;
    assert [a, b, c][..2] == [a, b];
    assert Sum([a, b, c]) == a + b + c;
    assert [a, b, c, d][..3] == [a, b, c];
    assert Sum([a, b, c, d]) == a + b + c + d;
    assert [a, b, c, d, e][..4] == [a, b, c, d];
  }

  /** A full centred window is the mean of the five samples around i
      (written out for `Window` = 5 and `Half` = 2). */
  lemma RollingMeanInner(s: seq<real>, i: int)
    requires Half <= i < |s| - Half
    ensures RollingMean(s)[i] == Finite((s[i - 2] + s[i - 1] + s[i] + s[i + 1] + s[i + 2]) / 5.0)
  {
    assert s[i - Half..i + Half + 1] == [s[i - 2], s[i - 1], s[i], s[i + 1], s[i + 2]];
    SumOfFive(s[i - 2], s[i - 1], s[i], s[i + 1], s[i + 2]);
  }

  /** The smoothed speeds: rolling mean, then backward fill, then forward
      fill. */
  function Smooth(s: seq<real>): (r: seq<Num>)
    ensures |r| == |s|
  {
    ForwardFill(BackFill(RollingMean(s)))
  }

  /** Below five samples no window is ever full, and the fills have nothing
      to copy: every smoothed value is NaN. */
  lemma SmoothShortIsNaN(s: seq<real>)
    requires |s| < Window
    ensures forall i :: 0 <= i < |s| ==> Smooth(s)[i].NaN?
  {
    var rolled := RollingMean(s);
    BackFillAllNaN(rolled);
    ForwardFillAllNaN(BackFill(rolled));
  }

  /** From five samples on, each inner position holds the mean of the five
      samples centred on it (written out for `Window` = 5 and `Half` = 2). */
  lemma SmoothInner(s: seq<real>, i: int)
    requires |s| >= Window
    requires Half <= i < |s| - Half
    ensures Smooth(s)[i] == Finite((s[i - 2] + s[i - 1] + s[i] + s[i + 1] + s[i + 2]) / 5.0)
  {
    RollingMeanInner(s, i);
  }

  /** From five samples on, the first two positions repeat position 2 and the
      last two repeat position |s| - 3. */
  lemma SmoothEdges(s: seq<real>)
    requires |s| >= Window
    ensures var r := Smooth(s);
            r[0] == r[2] && r[1] == r[2] && r[|s| - 2] == r[|s| - 3] && r[|s| - 1] == r[|s| - 3]
  {
    var n := |s|;
    var rolled := RollingMean(s);
    var back := BackFill(rolled);
    RollingMeanInner(s, 2);
    RollingMeanInner(s, n - 3);
    assert rolled[0].NaN? && rolled[1].NaN? && rolled[n - 2].NaN? && rolled[n - 1].NaN?;
    assert back[0] == back[1] == back[2] == rolled[2];
    assert back[n - 1].NaN? && back[n - 2].NaN? && back[n - 3] == rolled[n - 3];
  }

  /** Each smoothed value lies between the smallest and the largest input. */
  lemma SmoothWithinRange(s: seq<real>)
    requires |s| >= Window
    ensures forall i :: 0 <= i < |s| ==> Smooth(s)[i].Finite? && Min(s) <= Smooth(s)[i].v <= Max(s)
  {
    var r := Smooth(s);
    var lo, hi := Min(s), Max(s);
    forall i | Half <= i < |s| - Half
      ensures r[i].Finite? && lo <= r[i].v <= hi
    {
      SmoothInner(s, i);
      assert lo <= s[i - 2] <= hi && lo <= s[i - 1] <= hi && lo <= s[i] <= hi;
      assert lo <= s[i + 1] <= hi && lo <= s[i + 2] <= hi;
    }
    SmoothEdges(s);
  }
}
