/** The segment walk of `calculate_metrics` in pages/overview.py: the loop
    over consecutive point pairs that skips paused segments, turns each kept
    segment into a speed in km/h and keeps running distance and time totals. */
module SegmentWalk {
  import opened SeqMath
  import opened Track

  /** The loop state: kept speeds, cumulative distance after each kept
      segment, and the distance (metres) and time (seconds) totals. */
  datatype Walk = Walk(speeds: seq<real>, distances: seq<real>, totalDistance: real, totalTime: real)

  /** The state before the first iteration. */
  const Start: Walk := Walk([], [], 0.0, 0.0)

  /** The pause threshold in seconds for a threshold given in minutes. */
  function PauseThresholdSeconds(minutes: real): real
  {
    minutes * 60.0
  }

  /** The default pause threshold of one minute. */
  const DefaultPauseMinutes: real := 1.0

  /** A segment whose time gap exceeds the threshold counts as a pause. */
  predicate Paused(s: Segment, threshold: real)
  {
    s.timeDiff > threshold
  }

  /** With the default threshold a segment is a pause exactly when its time
      gap exceeds one minute. */
  lemma DefaultPauseIsOneMinute(s: Segment)
    ensures Paused(s, PauseThresholdSeconds(DefaultPauseMinutes)) <==> s.timeDiff > 60.0
  {
  }

  /** The instantaneous speed of a segment in km/h; a segment whose time
      does not advance has speed 0 instead of a division by zero. */
  function SegmentSpeed(s: Segment): (v: real)
    ensures s.timeDiff <= 0.0 ==> v == 0.0
  {
    if s.timeDiff > 0.0 then (s.distance / s.timeDiff) * 3.6 else 0.0
  }

  /** Speed times time gap gives back the distance (in km/h units, hence the
      factor 3.6); a gap that is not positive gives speed 0; a non-negative
      distance never gives a negative speed. */
  lemma SegmentSpeedMeaning(s: Segment)
    ensures s.timeDiff > 0.0 ==> SegmentSpeed(s) * s.timeDiff == s.distance * 3.6
    ensures s.timeDiff <= 0.0 ==> SegmentSpeed(s) == 0.0
    ensures s.distance >= 0.0 ==> SegmentSpeed(s) >= 0.0
  {
    if s.timeDiff > 0.0 {
      var q := s.distance / s.timeDiff;
      assert q * s.timeDiff == s.distance;
      assert q * 3.6 * s.timeDiff == q * s.timeDiff * 3.6;
    }
  }

  /** The speed of each segment. */
  function Speeds(segs: seq<Segment>): (vs: seq<real>)
    ensures |vs| == |segs|
  {
    seq(|segs|, i requires 0 <= i < |segs| => SegmentSpeed(segs[i]))
  }

  /** The accumulating part of the loop body: record the speed and the new
      cumulative distance, then advance both totals. */
  function Record(w: Walk, s: Segment): Walk
  {
    Walk(w.speeds + [SegmentSpeed(s)], w.distances + [w.totalDistance + s.distance],
         w.totalDistance + s.distance, w.totalTime + s.timeDiff)
  }

  /** One iteration of the loop: a paused segment is skipped before anything
      is accumulated. */
  function Step(w: Walk, s: Segment, threshold: real): (r: Walk)
    ensures Paused(s, threshold) ==> r == w
    ensures |r.speeds| == |w.speeds| + (if Paused(s, threshold) then 0 else 1)
  {
    if Paused(s, threshold) then w else Record(w, s)
  }

  /** The loop state after visiting every segment in order. */
  function Run(segs: seq<Segment>, threshold: real): (w: Walk)
    ensures |w.speeds| == |w.distances| <= |segs|
  {
    if |segs| == 0 then Start
    else Step(Run(segs[..|segs| - 1], threshold), segs[|segs| - 1], threshold)
  }

  /** Reference definition: the segments that are not pauses, in order. */
  function Kept(segs: seq<Segment>, threshold: real): (ks: seq<Segment>)
    ensures |ks| <= |segs|
    ensures forall i :: 0 <= i < |ks| ==> ks[i] in segs && !Paused(ks[i], threshold)
  {
    if |segs| == 0 then []
    else
      var prev := Kept(segs[..|segs| - 1], threshold);
      if Paused(segs[|segs| - 1], threshold) then prev else prev + [segs[|segs| - 1]]
  }

  /** Reference definition of the loop state after recording a list of
      segments: their speeds, the running totals of their distances, and
      their distance and time sums. */
  function Totals(ks: seq<Segment>): Walk
  {
    Walk(Speeds(ks), PrefixSums(Distances(ks)), Sum(Distances(ks)), Sum(TimeDiffs(ks)))
  }

  /** Recording one more segment agrees with the reference totals. */
  lemma RecordExtendsTotals(ks: seq<Segment>, s: Segment)
    ensures Record(Totals(ks), s) == Totals(ks + [s])
  {
    assert Speeds(ks + [s]) == Speeds(ks) + [SegmentSpeed(s)];
    assert Distances(ks + [s]) == Distances(ks) + [s.distance];
    assert TimeDiffs(ks + [s]) == TimeDiffs(ks) + [s.timeDiff];
    PrefixSumsAppend(Distances(ks), s.distance);
    SumAppend(Distances(ks), s.distance);
    SumAppend(TimeDiffs(ks), s.timeDiff);
  }

  /** The walk keeps exactly the speeds of the non-paused segments; its
      cumulative distances are the running totals of their distances; its
      totals are the sums of their distances and time differences. */
  lemma {:induction false} RunIsKeptTotals(segs: seq<Segment>, threshold: real)
    ensures Run(segs, threshold) == Totals(Kept(segs, threshold))
  {
    if |segs| > 0 {
      var init, s := segs[..|segs| - 1], segs[|segs| - 1];
      RunIsKeptTotals(init, threshold);
      if !Paused(s, threshold) {
        RecordExtendsTotals(Kept(init, threshold), s);
      }
    }
  }

  /** A paused segment leaves the whole loop state unchanged: no speed, no
      cumulative distance, nothing added to either total. */
  lemma PausedSegmentAddsNothing(segs: seq<Segment>, s: Segment, threshold: real)
    requires Paused(s, threshold)
    ensures Run(segs + [s], threshold) == Run(segs, threshold)
  {
    assert (segs + [s])[..|segs|] == segs;
  }

  /** Every segment is kept exactly when no segment is a pause. */
  lemma {:induction false} AllKeptIffNoPause(segs: seq<Segment>, threshold: real)
    ensures |Kept(segs, threshold)| == |segs|
            <==> forall i :: 0 <= i < |segs| ==> !Paused(segs[i], threshold)
  {
    if |segs| > 0 {
      var init := segs[..|segs| - 1];
      AllKeptIffNoPause(init, threshold);
      if forall i :: 0 <= i < |segs| ==> !Paused(segs[i], threshold) {
        assert forall i :: 0 <= i < |init| ==> !Paused(init[i], threshold);
      } else {
        var j :| 0 <= j < |segs| && Paused(segs[j], threshold);
        if j < |init| {
          assert Paused(init[j], threshold);
        }
      }
    }
  }

  /** With no pause, the kept segments are all the segments. */
  lemma {:induction false} NoPauseKeepsAll(segs: seq<Segment>, threshold: real)
    requires forall i :: 0 <= i < |segs| ==> !Paused(segs[i], threshold)
    ensures Kept(segs, threshold) == segs
  {
    if |segs| > 0 {
      var init := segs[..|segs| - 1];
      assert forall i :: 0 <= i < |init| ==> init[i] == segs[i];
      NoPauseKeepsAll(init, threshold);
      assert init + [segs[|segs| - 1]] == segs;
    }
  }

  /** Kept time differences are at most the threshold each, so the time total
      is at most the threshold times the number of kept segments. */
  lemma KeptTimeBound(segs: seq<Segment>, threshold: real)
    ensures var w := Run(segs, threshold);
            w.totalTime <= threshold * |w.speeds| as real
  {
    RunIsKeptTotals(segs, threshold);
    var ks := Kept(segs, threshold);
    SumAtMost(TimeDiffs(ks), threshold);
  }

  /** The last cumulative distance is the distance total. */
  lemma CumulativeEndsAtTotal(segs: seq<Segment>, threshold: real)
    ensures var w := Run(segs, threshold);
            |w.distances| > 0 ==> w.distances[|w.distances| - 1] == w.totalDistance
  {
    RunIsKeptTotals(segs, threshold);
    var ks := Kept(segs, threshold);
    if |ks| > 0 {
      PrefixSumsLast(Distances(ks));
    }
  }

  /** With non-negative segment distances the cumulative distances never
      decrease and the total is non-negative. */
  lemma CumulativeNonDecreasing(segs: seq<Segment>, threshold: real)
    requires forall i :: 0 <= i < |segs| ==> segs[i].distance >= 0.0
    ensures var w := Run(segs, threshold);
            && (forall i, j :: 0 <= i <= j < |w.distances| ==> w.distances[i] <= w.distances[j])
            && w.totalDistance >= 0.0
  {
    RunIsKeptTotals(segs, threshold);
    var ks := Kept(segs, threshold);
    PrefixSumsNonDecreasing(Distances(ks));
    SumAtLeast(Distances(ks), 0.0);
  }

  /** The walk over one more segment takes one more step. */
  lemma RunPrefixStep(segs: seq<Segment>, k: int, threshold: real)
    requires 0 <= k < |segs|
    ensures Run(segs[..k + 1], threshold) == Step(Run(segs[..k], threshold), segs[k], threshold)
  {
    assert segs[..k + 1][..k] == segs[..k];
  }

  /** The loop of `calculate_metrics` as written, with `continue` for a
      paused segment; it computes the walk defined by `Run`. */
  method RunLoop(pts: seq<Point>, dist: Distance, threshold: real)
    returns (speeds: seq<real>, distances: seq<real>, totalDistance: real, totalTime: real)
    ensures Walk(speeds, distances, totalDistance, totalTime) == Run(Segments(pts, dist), threshold)
  {
    speeds, distances, totalDistance, totalTime := [], [], 0.0, 0.0;
    ghost var segs := Segments(pts, dist);
    var i := 1;
    while i < |pts|
      invariant 1 <= i <= |pts| || (|pts| == 0 && i == 1)
      invariant Walk(speeds, distances, totalDistance, totalTime) == Run(segs[..i - 1], threshold)
    {
      var distance := dist(pts[i - 1], pts[i]);
      var timeDiff := pts[i].time - pts[i - 1].time;
      ghost var before := Walk(speeds, distances, totalDistance, totalTime);
      ghost var seg := Segment(distance, timeDiff);
      assert segs[i - 1] == seg;
      RunPrefixStep(segs, i - 1, threshold);
      if timeDiff > threshold {
        i := i + 1;
        continue;
      }
      var speed := SegmentSpeed(Segment(distance, timeDiff));
      speeds := speeds + [speed];
      distances := distances + [totalDistance + distance];
      totalDistance := totalDistance + distance;
      totalTime := totalTime + timeDiff;
      assert Walk(speeds, distances, totalDistance, totalTime) == Record(before, seg);
      i := i + 1;
    }
    assert segs[..|segs|] == segs;
  }
}
