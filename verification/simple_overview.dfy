/** `calculate_metrics` of simple_overview.py, the earlier variant: no pause
    filter, extremes and mean over the raw speeds, elapsed time from the
    first and last timestamps, and calories from fixed constants. */
module SimpleOverview {
  import opened Outcomes
  import opened SeqMath
  import opened Track
  import opened SegmentWalk

  /** The metrics dictionary of the variant; the time is in hours. */
  datatype SimpleMetrics = SimpleMetrics(
    highestSpeed: real,
    lowestSpeed: real,
    averageSpeed: real,
    totalTimeHours: real,
    topElevation: real,
    lowestElevation: real,
    totalDistanceKm: real,
    caloriesBurned: real)

  datatype SimpleAnalysis = SimpleAnalysis(speeds: seq<real>, distances: seq<real>, metrics: SimpleMetrics)

  /** `max(speeds)` raises with fewer than two points. */
  datatype SimpleError = TooFewPoints

  /** The assumed rider weight in kilograms. */
  const AssumedWeightKg: real := 80.0

  /** The MET value assumed for moderate cycling. */
  const CyclingMet: real := 12.0

  /** The loop without the pause check: every segment is recorded. */
  function RunAll(segs: seq<Segment>): (w: Walk)
    ensures |w.speeds| == |w.distances| == |segs|
  {
    if |segs| == 0 then Start else Record(RunAll(segs[..|segs| - 1]), segs[|segs| - 1])
  }

  /** Every segment contributes its speed, and the cumulative distances are
      the running totals of all segment distances. */
  lemma {:induction false} RunAllIsAllSegments(segs: seq<Segment>)
    ensures RunAll(segs) == Totals(segs)
  {
    if |segs| > 0 {
      var init, s := segs[..|segs| - 1], segs[|segs| - 1];
      RunAllIsAllSegments(init);
      assert init + [s] == segs;
      RecordExtendsTotals(init, s);
    }
  }

  /** When no segment exceeds the pause threshold, the filtered walk of
      pages/overview.py records exactly what the unfiltered one does. */
  lemma NoPauseAgreesWithOverview(segs: seq<Segment>, threshold: real)
    requires forall i :: 0 <= i < |segs| ==> !Paused(segs[i], threshold)
    ensures var w, v := RunAll(segs), Run(segs, threshold);
            w.speeds == v.speeds && w.distances == v.distances && w.totalDistance == v.totalDistance
  {
    RunAllIsAllSegments(segs);
    NoPauseKeepsAll(segs, threshold);
    RunIsKeptTotals(segs, threshold);
  }

  /** The metrics dictionary of the variant from the recorded speeds, the
      distance total, the elevations and the elapsed seconds: extremes and
      mean of the raw speeds, elevation extremes, kilometres, hours and the
      calories of an 80 kg rider at MET 12. */
  function SimpleSummary(speeds: seq<real>, totalDistance: real, elevations: seq<real>, elapsedSeconds: real): (m: SimpleMetrics)
    requires |speeds| > 0 && |elevations| > 0
    ensures m.highestSpeed in speeds && m.lowestSpeed in speeds
    ensures forall k :: 0 <= k < |speeds| ==> m.lowestSpeed <= speeds[k] <= m.highestSpeed
    ensures m.lowestSpeed <= m.averageSpeed <= m.highestSpeed
    ensures m.averageSpeed == Mean(speeds)
    ensures m.topElevation in elevations && m.lowestElevation in elevations
    ensures forall k :: 0 <= k < |elevations| ==> m.lowestElevation <= elevations[k] <= m.topElevation
    ensures m.totalDistanceKm * 1000.0 == totalDistance
    ensures m.totalTimeHours * 3600.0 == elapsedSeconds
  {
    var hours := elapsedSeconds / 3600.0;
    MeanBetweenExtremes(speeds);
    SimpleMetrics(Max(speeds), Min(speeds), Mean(speeds), hours,
                  Max(elevations), Min(elevations), totalDistance / 1000.0,
                  AssumedWeightKg * CyclingMet * hours)
  }

  /** `calculate_metrics(latitudes, longitudes, times, elevations)` of the
      variant. */
  function SimpleCalculateMetrics(pts: seq<Point>, dist: Distance): (r: Result<SimpleAnalysis, SimpleError>)
    ensures r.Err? <==> |pts| < 2
    ensures r.Ok? ==> |r.value.speeds| == |r.value.distances| == |pts| - 1
    ensures r.Ok? ==> var m := r.value.metrics;
              && m.highestSpeed in r.value.speeds && m.lowestSpeed in r.value.speeds
              && (forall k :: 0 <= k < |r.value.speeds| ==> m.lowestSpeed <= r.value.speeds[k] <= m.highestSpeed)
              && m.lowestSpeed <= m.averageSpeed <= m.highestSpeed
              && m.averageSpeed == Mean(r.value.speeds)
    ensures r.Ok? ==> var m := r.value.metrics;
              && m.topElevation in Elevations(pts) && m.lowestElevation in Elevations(pts)
              && (forall i :: 0 <= i < |pts| ==> m.lowestElevation <= pts[i].elevation <= m.topElevation)
  {
    var w := RunAll(Segments(pts, dist));
    if |pts| < 2 then Err(TooFewPoints)
    else Ok(SimpleAnalysis(w.speeds, w.distances,
              SimpleSummary(w.speeds, w.totalDistance, Elevations(pts), pts[|pts| - 1].time - pts[0].time)))
  }

  /** The variant's results in terms of the segments: every segment's speed,
      the running distance totals ending at the reported distance (in km
      times 1000), and an elapsed time equal to the sum of all segment time
      differences, so that the calories are 960 kcal per hour of it. */
  lemma SimpleMetricsTotals(pts: seq<Point>, dist: Distance)
    requires |pts| >= 2
    ensures var a := SimpleCalculateMetrics(pts, dist).value;
            var segs := Segments(pts, dist);
            && a.speeds == Speeds(segs)
            && a.distances == PrefixSums(Distances(segs))
            && a.distances[|a.distances| - 1] == a.metrics.totalDistanceKm * 1000.0
            && a.metrics.totalTimeHours * 3600.0 == Sum(TimeDiffs(segs))
            && a.metrics.caloriesBurned == 960.0 * a.metrics.totalTimeHours
  {
    var segs := Segments(pts, dist);
    var w := RunAll(segs);
    var a := SimpleCalculateMetrics(pts, dist).value;
    assert a.speeds == w.speeds && a.distances == w.distances;
    assert a.metrics.totalDistanceKm * 1000.0 == w.totalDistance;
    RunAllIsAllSegments(segs);
    PrefixSumsLast(Distances(segs));
    TimeDiffsTelescope(pts, dist);
  }

  /** The elapsed time depends on the first and last timestamps only. */
  lemma SimpleTimeIgnoresMiddle(pts: seq<Point>, other: seq<Point>, dist: Distance)
    requires |pts| >= 2 && |other| >= 2
    requires pts[0].time == other[0].time && pts[|pts| - 1].time == other[|other| - 1].time
    ensures SimpleCalculateMetrics(pts, dist).value.metrics.totalTimeHours
         == SimpleCalculateMetrics(other, dist).value.metrics.totalTimeHours
  {
  }
}
