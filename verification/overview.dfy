/** `calculate_metrics` of pages/overview.py: the pause-filtered segment walk,
    the smoothed speed summary, the elevation extremes and the totals. */
module Overview {
  import opened Outcomes
  import opened SeqMath
  import opened Floats
  import opened Track
  import opened SegmentWalk
  import opened Smoothing

  /** The metrics dictionary. Speeds are in km/h and may be NaN; the time is
      in seconds over kept segments; the distance is in kilometres. */
  datatype Metrics = Metrics(
    highestSpeed: Num,
    lowestSpeed: Num,
    averageSpeed: Num,
    totalTimeSeconds: real,
    topElevation: real,
    lowestElevation: real,
    totalDistanceKm: real)

  /** The three values `calculate_metrics` returns. */
  datatype Analysis = Analysis(speeds: seq<real>, distances: seq<real>, metrics: Metrics)

  /** `max(elevations)` raises on a track without points. */
  datatype TrackError = EmptyTrack

  /** Highest, lowest and average of the smoothed speeds. */
  datatype SpeedStats = SpeedStats(highest: Num, lowest: Num, average: Num)

  /** `max`, `min` and `sum / len` of the smoothed speeds, each 0 when there
      are none. A series that starts with NaN yields NaN for all three. */
  function SummarizeSpeeds(smoothed: seq<Num>): (st: SpeedStats)
    ensures |smoothed| == 0 ==> st == SpeedStats(Finite(0.0), Finite(0.0), Finite(0.0))
    ensures |smoothed| > 0 && smoothed[0].NaN? ==> st.highest.NaN? && st.lowest.NaN? && st.average.NaN?
    ensures st.highest.Finite? ==> forall i :: 0 <= i < |smoothed| ==> !Greater(smoothed[i], st.highest)
    ensures st.lowest.Finite? ==> forall i :: 0 <= i < |smoothed| ==> !Less(smoothed[i], st.lowest)
    ensures |smoothed| > 0 ==> st.highest in smoothed && st.lowest in smoothed
    ensures |smoothed| > 0 && st.average.Finite? ==>
              PySum(smoothed).Finite? && st.average.v * |smoothed| as real == PySum(smoothed).v
  {
    if |smoothed| == 0 then SpeedStats(Finite(0.0), Finite(0.0), Finite(0.0))
    else
      PyMaxBound(smoothed);
      PyMinBound(smoothed);
      SpeedStats(PyMax(smoothed), PyMin(smoothed), PyMean(smoothed))
  }

  /** No item compares greater than the result of `max`. */
  lemma {:induction false} PyMaxBound(xs: seq<Num>)
    requires |xs| > 0
    ensures PyMax(xs).Finite? ==> forall i :: 0 <= i < |xs| ==> !Greater(xs[i], PyMax(xs))
  {
    if |xs| > 1 {
      var init := xs[..|xs| - 1];
      PyMaxBound(init);
      assert forall i :: 0 <= i < |init| ==> xs[i] == init[i];
    }
  }

  /** No item compares less than the result of `min`. */
  lemma {:induction false} PyMinBound(xs: seq<Num>)
    requires |xs| > 0
    ensures PyMin(xs).Finite? ==> forall i :: 0 <= i < |xs| ==> !Less(xs[i], PyMin(xs))
  {
    if |xs| > 1 {
      var init := xs[..|xs| - 1];
      PyMinBound(init);
      assert forall i :: 0 <= i < |init| ==> xs[i] == init[i];
    }
  }

  /** On a non-empty series without NaN the summary is the maximum, minimum
      and mean, ordered lowest <= average <= highest. */
  lemma SummarizeFinite(xs: seq<real>)
    requires |xs| > 0
    ensures var st := SummarizeSpeeds(Lift(xs));
            && st == SpeedStats(Finite(Max(xs)), Finite(Min(xs)), Finite(Mean(xs)))
            && st.lowest.v <= st.average.v <= st.highest.v
  {
    PyMaxOfFinite(xs);
    PyMinOfFinite(xs);
    PyMeanOfFinite(xs);
    MeanBetweenExtremes(xs);
  }

  /** The aggregation after the loop: speed summary over the smoothed
      speeds, elevation extremes over every point, and the totals with the
      distance converted to kilometres. */
  function Aggregate(w: Walk, elevations: seq<real>): (m: Metrics)
    requires |elevations| > 0
    ensures m.lowestElevation in elevations && m.topElevation in elevations
    ensures forall i :: 0 <= i < |elevations| ==> m.lowestElevation <= elevations[i] <= m.topElevation
    ensures m.totalTimeSeconds == w.totalTime && m.totalDistanceKm * 1000.0 == w.totalDistance
    ensures |w.speeds| == 0 ==> m.highestSpeed == m.lowestSpeed == m.averageSpeed == Finite(0.0)
    ensures |w.speeds| > 0 ==> m.highestSpeed in Smooth(w.speeds) && m.lowestSpeed in Smooth(w.speeds)
    ensures m.highestSpeed.Finite? ==> forall i :: 0 <= i < |w.speeds| ==> !Greater(Smooth(w.speeds)[i], m.highestSpeed)
    ensures m.lowestSpeed.Finite? ==> forall i :: 0 <= i < |w.speeds| ==> !Less(Smooth(w.speeds)[i], m.lowestSpeed)
    ensures |w.speeds| > 0 ==> m.averageSpeed == PyMean(Smooth(w.speeds))
  {
    var st := SummarizeSpeeds(Smooth(w.speeds));
    Metrics(st.highest, st.lowest, st.average, w.totalTime,
            Max(elevations), Min(elevations), w.totalDistance / 1000.0)
  }

  /** `calculate_metrics(latitudes, longitudes, times, elevations,
      pause_threshold_minutes)`. */
  function CalculateMetrics(pts: seq<Point>, dist: Distance, pauseMinutes: real): (r: Result<Analysis, TrackError>)
    ensures r.Err? <==> |pts| == 0
    ensures r.Ok? ==> |r.value.speeds| == |r.value.distances| <= |pts| - 1
    ensures r.Ok? ==> var m := r.value.metrics;
              && m.lowestElevation <= m.topElevation
              && (forall i :: 0 <= i < |pts| ==> m.lowestElevation <= pts[i].elevation <= m.topElevation)
    ensures r.Ok? && |r.value.speeds| == 0 ==>
              var m := r.value.metrics;
              m.highestSpeed == m.lowestSpeed == m.averageSpeed == Finite(0.0)
  {
    var w := Run(Segments(pts, dist), PauseThresholdSeconds(pauseMinutes));
    if |pts| == 0 then Err(EmptyTrack)
    else Ok(Analysis(w.speeds, w.distances, Aggregate(w, Elevations(pts))))
  }

  /** The speeds and cumulative distances returned are those of the segments
      not longer than the pause threshold; the reported distance is their
      metre total over 1000 and the time their time-difference total. */
  lemma CalculateMetricsTotals(pts: seq<Point>, dist: Distance, pauseMinutes: real)
    requires |pts| > 0
    ensures var a := CalculateMetrics(pts, dist, pauseMinutes).value;
            var threshold := PauseThresholdSeconds(pauseMinutes);
            var ks := Kept(Segments(pts, dist), threshold);
            && a.speeds == Speeds(ks)
            && a.distances == PrefixSums(Distances(ks))
            && a.metrics.totalDistanceKm * 1000.0 == Sum(Distances(ks))
            && a.metrics.totalTimeSeconds == Sum(TimeDiffs(ks))
  {
    var segs, threshold := Segments(pts, dist), PauseThresholdSeconds(pauseMinutes);
    var w := Run(segs, threshold);
    var a := CalculateMetrics(pts, dist, pauseMinutes).value;
    assert a == Analysis(w.speeds, w.distances, Aggregate(w, Elevations(pts)));
    RunIsKeptTotals(segs, threshold);
  }

  /** The summary of smoothed speeds: all zero without speeds, all NaN with
      one to four, and otherwise finite with lowest <= average <= highest,
      all within the range of the raw speeds. */
  lemma SmoothedSummary(speeds: seq<real>)
    ensures var st := SummarizeSpeeds(Smooth(speeds));
            && (|speeds| == 0 ==> st.highest == st.lowest == st.average == Finite(0.0))
            && (0 < |speeds| < Window ==> st.highest.NaN? && st.lowest.NaN? && st.average.NaN?)
            && (|speeds| >= Window ==>
                  var sm := Smooth(speeds);
                  && (forall i :: 0 <= i < |sm| ==> sm[i].Finite?)
                  && st == SpeedStats(Finite(Max(Reals(sm))), Finite(Min(Reals(sm))), Finite(Mean(Reals(sm))))
                  && Min(speeds) <= st.lowest.v <= st.average.v <= st.highest.v <= Max(speeds))
  {
    if 0 < |speeds| < Window {
      SmoothShortIsNaN(speeds);
    } else if |speeds| >= Window {
      SmoothedSummaryFull(speeds);
    }
  }

  lemma SmoothedSummaryFull(speeds: seq<real>)
    requires |speeds| >= Window
    ensures var sm, st := Smooth(speeds), SummarizeSpeeds(Smooth(speeds));
            && (forall i :: 0 <= i < |sm| ==> sm[i].Finite?)
            && st == SpeedStats(Finite(Max(Reals(sm))), Finite(Min(Reals(sm))), Finite(Mean(Reals(sm))))
            && Min(speeds) <= st.lowest.v <= st.average.v <= st.highest.v <= Max(speeds)
  {
    SmoothWithinRange(speeds);
    SummaryWithin(Smooth(speeds), Min(speeds), Max(speeds));
  }

  /** A non-empty series of values within [lo, hi], none NaN, has a finite
      ordered summary within [lo, hi]. */
  lemma SummaryWithin(sm: seq<Num>, lo: real, hi: real)
    requires |sm| > 0
    requires forall i :: 0 <= i < |sm| ==> sm[i].Finite? && lo <= sm[i].v <= hi
    ensures var st := SummarizeSpeeds(sm);
            && st == SpeedStats(Finite(Max(Reals(sm))), Finite(Min(Reals(sm))), Finite(Mean(Reals(sm))))
            && lo <= st.lowest.v <= st.average.v <= st.highest.v <= hi
  {
    var vs := Reals(sm);
    SummarizeFinite(vs);
    var vlo, vhi := Min(vs), Max(vs);
    assert lo <= vlo && vhi <= hi;
  }

  /** The speed fields of the metrics follow `SmoothedSummary` for the kept
      speeds. */
  lemma CalculateMetricsSpeedSummary(pts: seq<Point>, dist: Distance, pauseMinutes: real)
    requires |pts| > 0
    ensures var a := CalculateMetrics(pts, dist, pauseMinutes).value;
            var m := a.metrics;
            && (|a.speeds| == 0 ==> m.highestSpeed == m.lowestSpeed == m.averageSpeed == Finite(0.0))
            && (0 < |a.speeds| < Window ==> m.highestSpeed.NaN? && m.lowestSpeed.NaN? && m.averageSpeed.NaN?)
            && (|a.speeds| >= Window ==>
                  var sm := Smooth(a.speeds);
                  && (forall i :: 0 <= i < |sm| ==> sm[i].Finite?)
                  && m.highestSpeed == Finite(Max(Reals(sm)))
                  && m.lowestSpeed == Finite(Min(Reals(sm)))
                  && m.averageSpeed == Finite(Mean(Reals(sm)))
                  && Min(a.speeds) <= m.lowestSpeed.v <= m.averageSpeed.v <= m.highestSpeed.v <= Max(a.speeds))
  {
    var w := Run(Segments(pts, dist), PauseThresholdSeconds(pauseMinutes));
    var st := SummarizeSpeeds(Smooth(w.speeds));
    var a := CalculateMetrics(pts, dist, pauseMinutes).value;
    assert a.speeds == w.speeds;
    assert a.metrics.highestSpeed == st.highest && a.metrics.lowestSpeed == st.lowest && a.metrics.averageSpeed == st.average;
    SmoothedSummary(w.speeds);
  }

  /** With non-negative segment distances the cumulative distances never
      decrease. */
  lemma CalculateMetricsCumulative(pts: seq<Point>, dist: Distance, pauseMinutes: real)
    requires |pts| > 0
    requires forall i :: 0 <= i < |pts| - 1 ==> dist(pts[i], pts[i + 1]) >= 0.0
    ensures var ds := CalculateMetrics(pts, dist, pauseMinutes).value.distances;
            forall i, j :: 0 <= i <= j < |ds| ==> ds[i] <= ds[j]
  {
    var segs, threshold := Segments(pts, dist), PauseThresholdSeconds(pauseMinutes);
    var w := Run(segs, threshold);
    assert CalculateMetrics(pts, dist, pauseMinutes).value.distances == w.distances;
    SegmentsNonNegative(pts, dist);
    CumulativeNonDecreasing(segs, threshold);
  }

  /** The last cumulative distance is the reported total in metres, and with
      non-negative segment distances that total is non-negative. */
  lemma CalculateMetricsDistanceTotal(pts: seq<Point>, dist: Distance, pauseMinutes: real)
    requires |pts| > 0
    requires forall i :: 0 <= i < |pts| - 1 ==> dist(pts[i], pts[i + 1]) >= 0.0
    ensures var a := CalculateMetrics(pts, dist, pauseMinutes).value;
            && (|a.distances| > 0 ==> a.distances[|a.distances| - 1] == a.metrics.totalDistanceKm * 1000.0)
            && a.metrics.totalDistanceKm >= 0.0
  {
    var segs, threshold := Segments(pts, dist), PauseThresholdSeconds(pauseMinutes);
    var w := Run(segs, threshold);
    var a := CalculateMetrics(pts, dist, pauseMinutes).value;
    assert a.distances == w.distances && a.metrics.totalDistanceKm * 1000.0 == w.totalDistance;
    SegmentsNonNegative(pts, dist);
    CumulativeNonDecreasing(segs, threshold);
    CumulativeEndsAtTotal(segs, threshold);
  }
}
