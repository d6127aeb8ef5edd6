/** A recorded track: the parallel latitude, longitude, elevation and time
    lists of the parser, zipped into one list of points, and the segments
    between consecutive points. */
module Track {
  import opened SeqMath

  /** One track point; `time` is the timestamp in seconds. */
  datatype Point = Point(latitude: real, longitude: real, elevation: real, time: real)

  /** The step between two consecutive points: the great-circle distance in
      metres and the time difference in seconds (negative when the
      timestamps go backwards, which nothing rejects). */
  datatype Segment = Segment(distance: real, timeDiff: real)

  /** The distance between two points. The Haversine formula is not modelled:
      any total function may stand in for it. */
  type Distance = (Point, Point) -> real

  /** The segments visited by `for i in range(1, len(times))`, in order. */
  function Segments(pts: seq<Point>, dist: Distance): (segs: seq<Segment>)
    ensures |segs| == if |pts| == 0 then 0 else |pts| - 1
  {
    if |pts| <= 1 then []
    else seq(|pts| - 1, i requires 0 <= i < |pts| - 1 =>
           Segment(dist(pts[i], pts[i + 1]), pts[i + 1].time - pts[i].time))
  }

  /** Segment i joins point i to point i + 1: its distance is theirs and its
      time difference is the later timestamp minus the earlier. */
  lemma SegmentAt(pts: seq<Point>, dist: Distance, i: int)
    requires 0 <= i < |pts| - 1
    ensures Segments(pts, dist)[i] == Segment(dist(pts[i], pts[i + 1]), pts[i + 1].time - pts[i].time)
  {
  }

  /** Segment distances are non-negative when the distance between
      consecutive points is. */
  lemma SegmentsNonNegative(pts: seq<Point>, dist: Distance)
    requires forall i :: 0 <= i < |pts| - 1 ==> dist(pts[i], pts[i + 1]) >= 0.0
    ensures forall i :: 0 <= i < |Segments(pts, dist)| ==> Segments(pts, dist)[i].distance >= 0.0
  {
  }

  /** The segments of a track with one more point are its old segments plus
      the step to the new point. */
  lemma SegmentsAppend(pts: seq<Point>, p: Point, dist: Distance)
    requires |pts| > 0
    ensures Segments(pts + [p], dist)
         == Segments(pts, dist) + [Segment(dist(pts[|pts| - 1], p), p.time - pts[|pts| - 1].time)]
  {
    var qs := pts + [p];
    var lhs, prev := Segments(qs, dist), Segments(pts, dist);
    var s := Segment(dist(pts[|pts| - 1], p), p.time - pts[|pts| - 1].time);
    assert |lhs| == |prev + [s]|;
    forall i | 0 <= i < |lhs|
      ensures lhs[i] == (prev + [s])[i]
    {
      assert qs[i] == pts[i];
      if i < |pts| - 1 {
        assert qs[i + 1] == pts[i + 1];
      }
    }
  }

  /** The elevation list of the parser. */
  function Elevations(pts: seq<Point>): (es: seq<real>)
    ensures |es| == |pts|
    ensures forall i :: 0 <= i < |pts| ==> es[i] == pts[i].elevation
  {
    seq(|pts|, i requires 0 <= i < |pts| => pts[i].elevation)
  }

  /** The time differences of consecutive points add up to the time between
      the first and the last point, whatever lies between them. */
  lemma {:induction false} TimeDiffsTelescope(pts: seq<Point>, dist: Distance)
    requires |pts| > 0
    ensures Sum(TimeDiffs(Segments(pts, dist))) == pts[|pts| - 1].time - pts[0].time
  {
    if |pts| > 1 {
      var init := pts[..|pts| - 1];
      var last := pts[|pts| - 1];
      assert init + [last] == pts;
      TimeDiffsTelescope(init, dist);
      SegmentsAppend(init, last, dist);
      var segs := Segments(init, dist);
      var s := Segment(dist(init[|init| - 1], last), last.time - init[|init| - 1].time);
      assert Segments(pts, dist) == segs + [s];
      assert TimeDiffs(segs + [s]) == TimeDiffs(segs) + [s.timeDiff];
      SumAppend(TimeDiffs(segs), s.timeDiff);
      assert init[0] == pts[0];
    }
  }

  /** The distance of each segment. */
  function Distances(segs: seq<Segment>): (ds: seq<real>)
    ensures |ds| == |segs|
  {
    seq(|segs|, i requires 0 <= i < |segs| => segs[i].distance)
  }

  /** The time difference of each segment. */
  function TimeDiffs(segs: seq<Segment>): (ts: seq<real>)
    ensures |ts| == |segs|
  {
    seq(|segs|, i requires 0 <= i < |segs| => segs[i].timeDiff)
  }
}
