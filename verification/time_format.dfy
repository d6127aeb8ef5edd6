/** The elapsed-time card of the overview: total seconds split into hours,
    minutes and seconds with Python's floor division and floored modulo,
    each truncated to an integer. */
module TimeFormat {

  /** Hours, minutes and seconds of an elapsed time. */
  datatype Clock = Clock(hours: int, minutes: int, seconds: int)

  /** Python's `x % m` on floats for a positive divisor: the result has the
      sign of the divisor. */
  function FloorMod(x: real, m: real): (r: real)
    requires m > 0.0
    ensures 0.0 <= r < m
  {
    var q := (x / m).Floor as real;
    FloorScaled(x, m);
    assert (q + 1.0) * m == q * m + m && m * q == q * m;
    x - m * q
  }

  /** The floor of x / m, times m, is at most x and within m of it. */
  lemma FloorScaled(x: real, m: real)
    requires m > 0.0
    ensures (x / m).Floor as real * m <= x < ((x / m).Floor as real + 1.0) * m
  {
    var y := x / m;
    var q := y.Floor as real;
    assert q <= y < q + 1.0;
    ScaleBetween(q, y, q + 1.0, m);
    assert y * m == x;
    assert q * m <= x;
    assert x < (q + 1.0) * m;
  }

  /** `int(t // 3600)`, `int((t % 3600) // 60)`, `int(t % 60)`. */
  function SplitSeconds(t: real): (c: Clock)
    ensures 0 <= c.minutes < 60 && 0 <= c.seconds < 60
    ensures c.hours * 3600 + c.minutes * 60 + c.seconds == t.Floor
  {
    FloorDivision(t, 3600);
    FloorDivision(FloorMod(t, 3600.0), 60);
    FloorModFloor(t, 3600);
    FloorModFloor(t, 60);
    Clock((t / 3600.0).Floor, (FloorMod(t, 3600.0) / 60.0).Floor, FloorMod(t, 60.0).Floor)
  }

  /** Floor division of a real by a positive integer is Euclidean division
      of its floor. */
  lemma FloorDivision(x: real, n: int)
    requires n > 0
    ensures (x / n as real).Floor == x.Floor / n
  {
    var f, q := x.Floor, x.Floor / n;
    var nr := n as real;
    assert q * n <= f < (q + 1) * n;
    assert (q * n) as real == q as real * nr && ((q + 1) * n) as real == (q as real + 1.0) * nr;
    assert q as real * nr <= x < (q as real + 1.0) * nr;
    UnscaleBetween(q as real, x, q as real + 1.0, nr);
  }

  /** Multiplying lo <= y < hi by a positive m. */
  lemma ScaleBetween(lo: real, y: real, hi: real, m: real)
    requires m > 0.0 && lo <= y < hi
    ensures lo * m <= y * m < hi * m
  {
  }

  /** Dividing lo*m <= y < hi*m by a positive m. */
  lemma UnscaleBetween(lo: real, y: real, hi: real, m: real)
    requires m > 0.0 && lo * m <= y < hi * m
    ensures lo <= y / m < hi
  {
    var z := y / m;
    assert z * m == y;
    assert (z - lo) * m == y - lo * m;
    assert (hi - z) * m == hi * m - y;
  }

  /** The floor of a floored modulo by a positive integer is the Euclidean
      remainder of the floor. */
  lemma FloorModFloor(x: real, n: int)
    requires n > 0
    ensures FloorMod(x, n as real).Floor == x.Floor % n
  {
    FloorDivision(x, n);
    var q := (x / n as real).Floor;
    assert FloorMod(x, n as real) == x - (n * q) as real;
  }

  /** Splitting a whole number of seconds given as hours, minutes below 60
      and seconds below 60 recovers exactly those three values. */
  lemma SplitSecondsInverse(c: Clock)
    requires 0 <= c.minutes < 60 && 0 <= c.seconds < 60
    ensures SplitSeconds((c.hours * 3600 + c.minutes * 60 + c.seconds) as real) == c
  {
    var n := c.hours * 3600 + c.minutes * 60 + c.seconds;
    var r := SplitSeconds(n as real);
    assert (n as real).Floor == n;
    assert r.hours == (n as real / 3600.0).Floor == n / 3600 by {
      FloorDivision(n as real, 3600);
    }
  }
}
