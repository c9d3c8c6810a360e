/** The three passes a finished stroke's raw points go through when stroke smoothing is on:
    a moving average, interpolation of long gaps, and quadratic Bézier smoothing. Each pass
    is given by a specification function and implemented by a method with the loops of the
    drawing client; the properties of the passes are lemmas about the functions. */
module Pipelines {
  import opened Wrappers
  import opened Types
  import opened Geometry

  // ---------------------------------------------------------------------------------------
  // Translation, the partner property of all three passes

  function Shift(p: Point, dx: real, dy: real): Point {
    Point(p.x + dx, p.y + dy, p.pressure)
  }

  function ShiftAll(ps: seq<Point>, dx: real, dy: real): (r: seq<Point>)
    ensures |r| == |ps|
    ensures forall i :: 0 <= i < |ps| ==> r[i] == Shift(ps[i], dx, dy)
  {
    seq(|ps|, i requires 0 <= i < |ps| => Shift(ps[i], dx, dy))
  }

  // ---------------------------------------------------------------------------------------
  // Moving average (`smoothPoints`)

  /** Sum of the x coordinates of `points[lo..hi]`, accumulated left to right. */
  function SumX(points: seq<Point>, lo: int, hi: int): real
    requires 0 <= lo <= hi <= |points|
    decreases hi - lo
  {
    if lo == hi then 0.0 else SumX(points, lo, hi - 1) + points[hi - 1].x
  }

  function SumY(points: seq<Point>, lo: int, hi: int): real
    requires 0 <= lo <= hi <= |points|
    decreases hi - lo
  {
    if lo == hi then 0.0 else SumY(points, lo, hi - 1) + points[hi - 1].y
  }

  /** Interior point `i` replaced by the mean of itself and its two neighbours; it keeps its
      own pressure. */
  function Average3(points: seq<Point>, i: int): Point
    requires 1 <= i < |points| - 1
  {
    Point((points[i - 1].x + points[i].x + points[i + 1].x) / 3.0,
          (points[i - 1].y + points[i].y + points[i + 1].y) / 3.0,
          points[i].pressure)
  }

  /** What `smoothPoints` returns: the input itself when smoothing is off or there are fewer
      than three points, otherwise the two end points kept and every interior point
      averaged with its neighbours. */
  function Smoothed(points: seq<Point>, smooth: bool): (r: seq<Point>)
    ensures |r| == |points|
    ensures |points| > 0 ==> r[0] == points[0] && r[|r| - 1] == points[|points| - 1]
  {
    if !smooth || |points| < 3 then points
    else
      [points[0]]
      + seq(|points| - 2, k requires 0 <= k < |points| - 2 => Average3(points, k + 1))
      + [points[|points| - 1]]
  }

  /** `smoothPoints`: window of `min(3, n)` points centred on each interior point, summed
      by an inner loop. */
  method SmoothPoints(points: seq<Point>, smooth: bool) returns (r: seq<Point>)
    ensures r == Smoothed(points, smooth)
  {
    var n := |points|;
    if !smooth || n < 3 {
      return points;
    }
    var windowSize := if n < 3 then n else 3;
    r := [points[0]];
    var i := 1;
    while i < n - 1
      invariant 1 <= i <= n - 1
      invariant r == [points[0]] + seq(i - 1, k requires 0 <= k < i - 1 => Average3(points, k + 1))
    {
      // Math.max(0, i - floor(w / 2)) and Math.min(n, i + ceil(w / 2))
      var start := if i - windowSize / 2 > 0 then i - windowSize / 2 else 0;
      var end := if i + (windowSize + 1) / 2 < n then i + (windowSize + 1) / 2 else n;
      assert start == i - 1 && end == i + 2;
      var sumX, sumY := 0.0, 0.0;
      var count := 0;
      var j := start;
      while j < end
        invariant start <= j <= end
        invariant sumX == SumX(points, start, j) && sumY == SumY(points, start, j)
        invariant count == j - start
      {
        sumX := sumX + points[j].x;
        sumY := sumY + points[j].y;
        count := count + 1;
        j := j + 1;
      }
      assert count == 3;
      assert sumX == points[i - 1].x + points[i].x + points[i + 1].x by {
        assert SumX(points, start, j) == SumX(points, start, i + 1) + points[i + 1].x;
        assert SumX(points, start, i + 1) == SumX(points, start, i) + points[i].x;
      }
      assert sumY == points[i - 1].y + points[i].y + points[i + 1].y by {
        assert SumY(points, start, j) == SumY(points, start, i + 1) + points[i + 1].y;
        assert SumY(points, start, i + 1) == SumY(points, start, i) + points[i].y;
      }
      var avg := Point(sumX / count as real, sumY / count as real, points[i].pressure);
      assert avg == Average3(points, i);
      r := r + [avg];
      i := i + 1;
    }
    r := r + [points[n - 1]];
  }

  /** Averaging commutes with translation: smoothing a moved stroke gives the moved result. */
  lemma SmoothedShift(points: seq<Point>, smooth: bool, dx: real, dy: real)
    ensures Smoothed(ShiftAll(points, dx, dy), smooth) == ShiftAll(Smoothed(points, smooth), dx, dy)
  {
    var q := ShiftAll(points, dx, dy);
    if smooth && |points| >= 3 {
      forall k | 1 <= k < |points| - 1
        ensures Average3(q, k) == Shift(Average3(points, k), dx, dy)
      {
        var a, b, c := points[k - 1], points[k], points[k + 1];
        assert (a.x + dx + (b.x + dx) + (c.x + dx)) / 3.0 == (a.x + b.x + c.x) / 3.0 + dx;
        assert (a.y + dy + (b.y + dy) + (c.y + dy)) / 3.0 == (a.y + b.y + c.y) / 3.0 + dy;
      }
    }
  }

  // ---------------------------------------------------------------------------------------
  // Gap interpolation (`interpolatePoints`)

  /** Largest `k` with `4 * k * k <= m`, counting up from `k`. */
  function HalfRootFrom(m: int, k: nat): (r: nat)
    requires 4 * k * k <= m
    ensures 4 * r * r <= m < 4 * (r + 1) * (r + 1)
    decreases m - 4 * k * k
  {
    if 4 * (k + 1) * (k + 1) <= m then HalfRootFrom(m, k + 1) else k
  }

  /** `Math.floor(Math.sqrt(dsq) / 2)`: the largest `k` with `2k <= sqrt(dsq)`. */
  function HalfDistanceFloor(dsq: real): (k: nat)
    requires dsq >= 0.0
    ensures (4 * k * k) as real <= dsq < (4 * (k + 1) * (k + 1)) as real
  {
    HalfRootFrom(dsq.Floor, 0)
  }

  /** Point at fraction `t` from `c` to `n`; the pressure is interpolated only when both
      ends have one. */
  function InterpSample(c: Point, n: Point, t: real): Point {
    Point(c.x + (n.x - c.x) * t, c.y + (n.y - c.y) * t, LerpPressure(c.pressure, n.pressure, t))
  }

  function LerpPressure(a: Option<real>, b: Option<real>, t: real): Option<real> {
    if a.Some? && b.Some? then Some(a.value + (b.value - a.value) * t) else None
  }

  /** `step / steps` */
  function Fraction(step: int, steps: nat): real
    requires steps > 0
  {
    step as real / steps as real
  }

  /** The points inserted strictly between `c` and `n`: none when they are at most 3 apart,
      otherwise `steps - 1` evenly spaced points with `steps = floor(distance / 2)`. */
  function Inserted(c: Point, n: Point): (r: seq<Point>)
    ensures DistSq(c, n) <= 9.0 ==> r == []
  {
    var dsq := DistSq(c, n);
    if dsq > 9.0 then
      var steps := HalfDistanceFloor(dsq);
      assert steps >= 1;
      seq(steps - 1, k requires 0 <= k < steps - 1 => InterpSample(c, n, Fraction(k + 1, steps)))
    else []
  }

  /** The output for the first `i` gaps: each left point followed by what is inserted after it. */
  function InterpPrefix(points: seq<Point>, i: int): (r: seq<Point>)
    requires 0 <= i < |points|
    ensures |r| >= i
    ensures i > 0 ==> r[0] == points[0]
  {
    if i == 0 then [] else InterpPrefix(points, i - 1) + [points[i - 1]] + Inserted(points[i - 1], points[i])
  }

  /** What `interpolatePoints` returns. */
  function Interpolated(points: seq<Point>, smooth: bool): (r: seq<Point>)
    ensures |r| >= |points|
    ensures |points| > 0 ==> r[0] == points[0] && r[|r| - 1] == points[|points| - 1]
  {
    if !smooth || |points| < 2 then points
    else InterpPrefix(points, |points| - 1) + [points[|points| - 1]]
  }

  /** `interpolatePoints`: one outer step per gap, an inner loop over the inserted points. */
  method InterpolatePoints(points: seq<Point>, smooth: bool) returns (r: seq<Point>)
    ensures r == Interpolated(points, smooth)
  {
    var n := |points|;
    if !smooth || n < 2 {
      return points;
    }
    r := [];
    var i := 0;
    while i < n - 1
      invariant 0 <= i <= n - 1
      invariant r == InterpPrefix(points, i)
    {
      var current, next := points[i], points[i + 1];
      r := r + [current];
      var dx, dy := next.x - current.x, next.y - current.y;
      var dsq := dx * dx + dy * dy;
      assert dsq == DistSq(current, next);
      ghost var before := r;
      if dsq > 9.0 {
        var steps := HalfDistanceFloor(dsq);
        var step := 1;
        while step < steps
          invariant 1 <= step <= steps
          invariant r == before + Inserted(current, next)[..step - 1]
        {
          var t := Fraction(step, steps);
          r := r + [InterpSample(current, next, t)];
          step := step + 1;
        }
        assert Inserted(current, next)[..step - 1] == Inserted(current, next);
      }
      i := i + 1;
    }
    r := r + [points[n - 1]];
  }

  /** A stroke none of whose consecutive points are more than 3 apart is left as it is. */
  lemma {:induction false} InterpPrefixShortGaps(points: seq<Point>, i: int)
    requires 0 <= i < |points|
    requires forall j :: 0 < j < |points| ==> DistSq(points[j - 1], points[j]) <= 9.0
    ensures InterpPrefix(points, i) == points[..i]
  {
    if i > 0 {
      InterpPrefixShortGaps(points, i - 1);
      assert points[..i] == points[..i - 1] + [points[i - 1]];
    }
  }

  lemma InterpolatedShortGaps(points: seq<Point>, smooth: bool)
    requires forall j :: 0 < j < |points| ==> DistSq(points[j - 1], points[j]) <= 9.0
    ensures Interpolated(points, smooth) == points
  {
    if smooth && |points| >= 2 {
      InterpPrefixShortGaps(points, |points| - 1);
      assert points == points[..|points| - 1] + [points[|points| - 1]];
    }
  }

  /** Every original point survives interpolation, in order: point `j` sits at position
      `|InterpPrefix(points, j)|` of the result. */
  lemma {:induction false} InterpPrefixKeeps(points: seq<Point>, i: int, j: int)
    requires 0 <= j < i < |points|
    ensures |InterpPrefix(points, j)| < |InterpPrefix(points, i)|
    ensures InterpPrefix(points, i)[|InterpPrefix(points, j)|] == points[j]
  {
    if j < i - 1 {
      InterpPrefixKeeps(points, i - 1, j);
    }
  }

  lemma InterpolatedKeeps(points: seq<Point>, smooth: bool, j: int)
    requires smooth && 0 <= j < |points| - 1
    ensures |InterpPrefix(points, j)| < |Interpolated(points, smooth)|
    ensures Interpolated(points, smooth)[|InterpPrefix(points, j)|] == points[j]
  {
    InterpPrefixKeeps(points, |points| - 1, j);
  }

  lemma DistSqShift(a: Point, b: Point, dx: real, dy: real)
    ensures DistSq(Shift(a, dx, dy), Shift(b, dx, dy)) == DistSq(a, b)
  {
    assert a.x + dx - (b.x + dx) == a.x - b.x;
    assert a.y + dy - (b.y + dy) == a.y - b.y;
  }

  lemma SampleShift(c: Point, n: Point, t: real, dx: real, dy: real)
    ensures InterpSample(Shift(c, dx, dy), Shift(n, dx, dy), t) == Shift(InterpSample(c, n, t), dx, dy)
  {
    var c', n' := Shift(c, dx, dy), Shift(n, dx, dy);
    var u, v := n.x - c.x, n.y - c.y;
    assert n'.x - c'.x == u && n'.y - c'.y == v;
    var mx, my := u * t, v * t;
    assert InterpSample(c', n', t).x == c.x + dx + mx;
    assert InterpSample(c', n', t).y == c.y + dy + my;
    assert InterpSample(c, n, t).x == c.x + mx;
    assert InterpSample(c, n, t).y == c.y + my;
    assert c'.pressure == c.pressure && n'.pressure == n.pressure;
    var p := InterpSample(c, n, t);
    assert Shift(p, dx, dy) == Point(c.x + mx + dx, c.y + my + dy, p.pressure);
  }

  lemma InsertedShift(c: Point, n: Point, dx: real, dy: real)
    ensures Inserted(Shift(c, dx, dy), Shift(n, dx, dy)) == ShiftAll(Inserted(c, n), dx, dy)
  {
    DistSqShift(c, n, dx, dy);
    var dsq := DistSq(c, n);
    if dsq > 9.0 {
      var steps := HalfDistanceFloor(dsq);
      var r, s := Inserted(Shift(c, dx, dy), Shift(n, dx, dy)), Inserted(c, n);
      assert |r| == |s| == steps - 1;
      forall k | 0 <= k < steps - 1
        ensures r[k] == Shift(s[k], dx, dy)
      {
        SampleShift(c, n, Fraction(k + 1, steps), dx, dy);
      }
    }
  }

  lemma {:induction false} InterpPrefixShift(points: seq<Point>, i: int, dx: real, dy: real)
    requires 0 <= i < |points|
    ensures InterpPrefix(ShiftAll(points, dx, dy), i) == ShiftAll(InterpPrefix(points, i), dx, dy)
  {
    if i > 0 {
      var q := ShiftAll(points, dx, dy);
      InterpPrefixShift(points, i - 1, dx, dy);
      InsertedShift(points[i - 1], points[i], dx, dy);
      var a, b := InterpPrefix(points, i - 1), Inserted(points[i - 1], points[i]);
      assert ShiftAll(a + [points[i - 1]] + b, dx, dy)
          == ShiftAll(a, dx, dy) + [q[i - 1]] + ShiftAll(b, dx, dy);
    }
  }

  /** Interpolation commutes with translation. */
  lemma InterpolatedShift(points: seq<Point>, smooth: bool, dx: real, dy: real)
    ensures Interpolated(ShiftAll(points, dx, dy), smooth) == ShiftAll(Interpolated(points, smooth), dx, dy)
  {
    if smooth && |points| >= 2 {
      var n := |points|;
      InterpPrefixShift(points, n - 1, dx, dy);
      var a := InterpPrefix(points, n - 1);
      assert ShiftAll(a + [points[n - 1]], dx, dy) == ShiftAll(a, dx, dy) + [Shift(points[n - 1], dx, dy)];
    }
  }

  // ---------------------------------------------------------------------------------------
  // Quadratic Bézier smoothing (`applyBezierSmoothing`)

  /** Point `step / 3` along the quadratic curve from `prev` to `cur` whose control point
      is the midpoint of `prev` and `next`; it carries `cur`'s pressure. */
  function QuadAt(prev: Point, cur: Point, next: Point, step: int): Point {
    var t := step as real / 3.0;
    var u := 1.0 - t;
    var cpX, cpY := (prev.x + next.x) / 2.0, (prev.y + next.y) / 2.0;
    Point(u * u * prev.x + 2.0 * u * t * cpX + t * t * cur.x,
          u * u * prev.y + 2.0 * u * t * cpY + t * t * cur.y,
          cur.pressure)
  }

  /** The curve samples emitted for interior point `i`: steps 1 to 3, and also step 0 for
      the first interior point. */
  function BezierPiece(points: seq<Point>, i: int): (r: seq<Point>)
    requires 1 <= i < |points| - 1
    ensures |r| == if i == 1 then 4 else 3
  {
    var lo := if i == 1 then 0 else 1;
    seq(4 - lo, k requires 0 <= k < 4 - lo => QuadAt(points[i - 1], points[i], points[i + 1], lo + k))
  }

  /** The first point followed by the pieces of the interior points before `i`. */
  function BezierPrefix(points: seq<Point>, i: int): (r: seq<Point>)
    requires 1 <= i < |points|
    ensures |r| == if i == 1 then 1 else 3 * i - 1
    ensures r[0] == points[0]
  {
    if i == 1 then [points[0]] else BezierPrefix(points, i - 1) + BezierPiece(points, i - 1)
  }

  /** What `applyBezierSmoothing` returns: `3n - 3` points for `n >= 3` input points. */
  function Bezier(points: seq<Point>, smooth: bool): (r: seq<Point>)
    ensures |points| > 0 ==> |r| > 0 && r[0] == points[0] && r[|r| - 1] == points[|points| - 1]
    ensures smooth && |points| >= 3 ==> |r| == 3 * |points| - 3
    ensures !smooth || |points| < 3 ==> r == points
  {
    if !smooth || |points| < 3 then points
    else BezierPrefix(points, |points| - 1) + [points[|points| - 1]]
  }

  /** `applyBezierSmoothing`: four curve steps per interior point; step 0 is emitted only for
      the first one. */
  method ApplyBezierSmoothing(points: seq<Point>, smooth: bool) returns (r: seq<Point>)
    ensures r == Bezier(points, smooth)
  {
    var n := |points|;
    if !smooth || n < 3 {
      return points;
    }
    r := [points[0]];
    var i := 1;
    while i < n - 1
      invariant 1 <= i <= n - 1
      invariant r == BezierPrefix(points, i)
    {
      var prev, current, next := points[i - 1], points[i], points[i + 1];
      ghost var before := r;
      ghost var lo := if i == 1 then 0 else 1;
      var step := 0;
      while step <= 3
        invariant 0 <= step <= 4
        invariant r == before + BezierPiece(points, i)[..if step < lo then 0 else step - lo]
      {
        if step > 0 || i == 1 {
          r := r + [QuadAt(prev, current, next, step)];
        }
        step := step + 1;
      }
      assert BezierPiece(points, i)[..4 - lo] == BezierPiece(points, i);
      i := i + 1;
    }
    r := r + [points[n - 1]];
  }

  /** The last curve sample of a piece is the interior point itself. */
  lemma QuadEnd(prev: Point, cur: Point, next: Point)
    ensures QuadAt(prev, cur, next, 3) == cur
  {
  }

  /** The first sample of the first piece is the first point's position. */
  lemma QuadStart(prev: Point, cur: Point, next: Point)
    ensures QuadAt(prev, cur, next, 0) == Point(prev.x, prev.y, cur.pressure)
  {
  }

  lemma {:induction false} BezierPrefixThrough(points: seq<Point>, i: int, j: int)
    requires 1 <= j < i < |points|
    ensures BezierPrefix(points, i)[3 * j + 1] == points[j]
  {
    if j < i - 1 {
      BezierPrefixThrough(points, i - 1, j);
    } else {
      QuadEnd(points[j - 1], points[j], points[j + 1]);
    }
  }

  /** The smoothed curve passes through every input point: interior point `j` reappears
      unchanged at position `3j + 1`, the two end points at both ends. */
  lemma BezierThrough(points: seq<Point>, j: int)
    requires 3 <= |points| && 1 <= j < |points| - 1
    ensures Bezier(points, true)[3 * j + 1] == points[j]
  {
    BezierPrefixThrough(points, |points| - 1, j);
  }

  lemma QuadShift(prev: Point, cur: Point, next: Point, step: int, dx: real, dy: real)
    ensures QuadAt(Shift(prev, dx, dy), Shift(cur, dx, dy), Shift(next, dx, dy), step)
         == Shift(QuadAt(prev, cur, next, step), dx, dy)
  {
    var t := step as real / 3.0;
    var u := 1.0 - t;
    assert u * u + 2.0 * u * t + t * t == 1.0 by {
      assert u * u + 2.0 * u * t + t * t == (u + t) * (u + t);
    }
    var cpX, cpY := (prev.x + next.x) / 2.0, (prev.y + next.y) / 2.0;
    assert (prev.x + dx + (next.x + dx)) / 2.0 == cpX + dx;
    assert (prev.y + dy + (next.y + dy)) / 2.0 == cpY + dy;
    assert u * u * (prev.x + dx) + 2.0 * u * t * (cpX + dx) + t * t * (cur.x + dx)
        == u * u * prev.x + 2.0 * u * t * cpX + t * t * cur.x + (u * u + 2.0 * u * t + t * t) * dx;
    assert u * u * (prev.y + dy) + 2.0 * u * t * (cpY + dy) + t * t * (cur.y + dy)
        == u * u * prev.y + 2.0 * u * t * cpY + t * t * cur.y + (u * u + 2.0 * u * t + t * t) * dy;
  }

  lemma {:induction false} BezierPrefixShift(points: seq<Point>, i: int, dx: real, dy: real)
    requires 1 <= i < |points|
    ensures BezierPrefix(ShiftAll(points, dx, dy), i) == ShiftAll(BezierPrefix(points, i), dx, dy)
  {
    if i > 1 {
      BezierPrefixShift(points, i - 1, dx, dy);
      var q := ShiftAll(points, dx, dy);
      var a, b := BezierPiece(q, i - 1), BezierPiece(points, i - 1);
      forall k | 0 <= k < |a|
        ensures a[k] == Shift(b[k], dx, dy)
      {
        var lo := if i - 1 == 1 then 0 else 1;
        QuadShift(points[i - 2], points[i - 1], points[i], lo + k, dx, dy);
      }
      assert a == ShiftAll(b, dx, dy);
      var c := BezierPrefix(points, i - 1);
      assert ShiftAll(c + b, dx, dy) == ShiftAll(c, dx, dy) + ShiftAll(b, dx, dy);
    }
  }

  /** Bézier smoothing commutes with translation. */
  lemma BezierShift(points: seq<Point>, smooth: bool, dx: real, dy: real)
    ensures Bezier(ShiftAll(points, dx, dy), smooth) == ShiftAll(Bezier(points, smooth), dx, dy)
  {
    if smooth && |points| >= 3 {
      var n := |points|;
      BezierPrefixShift(points, n - 1, dx, dy);
      var a := BezierPrefix(points, n - 1);
      assert ShiftAll(a + [points[n - 1]], dx, dy) == ShiftAll(a, dx, dy) + [Shift(points[n - 1], dx, dy)];
    }
  }

  // ---------------------------------------------------------------------------------------
  // The whole pass of `endStroke`

  /** The points a finished stroke gets when smoothing is on and more than two raw points
      were collected: averaged, then interpolated, then Bézier-smoothed if more than five
      points resulted. */
  function FinalPoints(raw: seq<Point>): seq<Point>
    requires |raw| > 2
  {
    var interpolated := Interpolated(Smoothed(raw, true), true);
    if |interpolated| > 5 then Bezier(interpolated, true) else interpolated
  }

  /** The finished stroke starts and ends where the pointer went down and up, and has at
      least as many points as were collected. */
  lemma FinalPointsEnds(raw: seq<Point>)
    requires |raw| > 2
    ensures |FinalPoints(raw)| >= |raw|
    ensures FinalPoints(raw)[0] == raw[0]
    ensures FinalPoints(raw)[|FinalPoints(raw)| - 1] == raw[|raw| - 1]
  {
  }

  /** Drawing the same gesture elsewhere on the canvas gives the same stroke, moved. */
  lemma FinalPointsShift(raw: seq<Point>, dx: real, dy: real)
    requires |raw| > 2
    ensures FinalPoints(ShiftAll(raw, dx, dy)) == ShiftAll(FinalPoints(raw), dx, dy)
  {
    var s := Smoothed(raw, true);
    SmoothedShift(raw, true, dx, dy);
    InterpolatedShift(s, true, dx, dy);
    BezierShift(Interpolated(s, true), true, dx, dy);
  }

  /** `endStroke`'s point pipeline, calling the three pass methods in order. */
  method FinishPoints(raw: seq<Point>) returns (r: seq<Point>)
    requires |raw| > 2
    ensures r == FinalPoints(raw)
  {
    r := SmoothPoints(raw, true);
    r := InterpolatePoints(r, true);
    if |r| > 5 {
      r := ApplyBezierSmoothing(r, true);
    }
  }
}
