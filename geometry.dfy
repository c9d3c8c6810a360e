/** Stroke geometry of the drawing client: the pan/zoom viewport and the eraser's hit test. */
module Geometry {
  import opened Wrappers
  import opened Types

  function Min(a: real, b: real): real { if a <= b then a else b }
  function Max(a: real, b: real): real { if a >= b then a else b }

  /** Pan offsets and zoom factor of the canvas view. */
  datatype Viewport = Viewport(panX: real, panY: real, zoom: real)

  const MinZoom: real := 0.1
  const MaxZoom: real := 5.0

  /** Screen position to canvas position under the view. */
  function ScreenToCanvas(v: Viewport, p: Point): Point
    requires v.zoom != 0.0
  {
    Point((p.x - v.panX) / v.zoom, (p.y - v.panY) / v.zoom, None)
  }

  /** Canvas position to screen position under the view. */
  function CanvasToScreen(v: Viewport, c: Point): Point {
    Point(c.x * v.zoom + v.panX, c.y * v.zoom + v.panY, None)
  }

  /** The two transforms are inverse to each other on positions (the pressure is dropped). */
  lemma ScreenCanvasInverse(v: Viewport, p: Point)
    requires v.zoom != 0.0
    ensures CanvasToScreen(v, ScreenToCanvas(v, p)) == Point(p.x, p.y, None)
    ensures ScreenToCanvas(v, CanvasToScreen(v, p)) == Point(p.x, p.y, None)
  {
    var z := v.zoom;
    assert (p.x - v.panX) / z * z == p.x - v.panX;
    assert (p.y - v.panY) / z * z == p.y - v.panY;
    assert (p.x * z + v.panX - v.panX) / z == p.x;
    assert (p.y * z + v.panY - v.panY) / z == p.y;
  }

  /** `Math.max(0.1, Math.min(5, z))`. */
  function ClampZoom(z: real): real { Max(MinZoom, Min(MaxZoom, z)) }

  /** Zoom by `delta` about the screen point `sp`: the zoom is clamped, and when it changes
      the pan is moved so that the canvas point under `sp` stays under `sp`. */
  function ZoomAt(v: Viewport, sp: Point, delta: real): (r: Viewport)
    requires v.zoom != 0.0
    ensures r.zoom == ClampZoom(v.zoom * delta)
    ensures r.zoom == v.zoom ==> r == v
  {
    var newZoom := ClampZoom(v.zoom * delta);
    if newZoom != v.zoom then
      var canvasPoint := ScreenToCanvas(v, sp);
      var moved := CanvasToScreen(v.(zoom := newZoom), canvasPoint);
      Viewport(v.panX + (sp.x - moved.x), v.panY + (sp.y - moved.y), newZoom)
    else v
  }

  /** The zoom ends in [0.1, 5] equal to the clamped product, and the canvas point that was
      under `sp` is drawn at `sp` again. */
  lemma ZoomAtKeepsFocus(v: Viewport, sp: Point, delta: real)
    requires v.zoom != 0.0
    ensures ZoomAt(v, sp, delta).zoom == ClampZoom(v.zoom * delta)
    ensures MinZoom <= ZoomAt(v, sp, delta).zoom <= MaxZoom
    ensures CanvasToScreen(ZoomAt(v, sp, delta), ScreenToCanvas(v, sp)) == Point(sp.x, sp.y, None)
  {
    var newZoom := ClampZoom(v.zoom * delta);
    var c := ScreenToCanvas(v, sp);
    var w := ZoomAt(v, sp, delta);
    if newZoom != v.zoom {
      var mx, my := c.x * newZoom, c.y * newZoom;
      assert w.panX == v.panX + (sp.x - (mx + v.panX));
      assert w.panY == v.panY + (sp.y - (my + v.panY));
      assert CanvasToScreen(w, c) == Point(mx + w.panX, my + w.panY, None);
    } else {
      ScreenCanvasInverse(v, sp);
    }
  }

  /** When the clamped zoom equals the current one, zooming changes nothing. */
  lemma ZoomAtUnchanged(v: Viewport, sp: Point, delta: real)
    requires v.zoom != 0.0 && ClampZoom(v.zoom * delta) == v.zoom
    ensures ZoomAt(v, sp, delta) == v
  {
  }

  function DistSq(a: Point, b: Point): (d: real)
    ensures d >= 0.0
  {
    (a.x - b.x) * (a.x - b.x) + (a.y - b.y) * (a.y - b.y)
  }

  /** `Math.sqrt(dsq) <= r` for a non-negative `dsq`, without the square root. */
  predicate WithinRadius(dsq: real, r: real) {
    r >= 0.0 && dsq <= r * r
  }

  /** Position of the projection of `p` on the line through `a` and `b`, as a fraction of
      `b - a`; -1 when the segment has length zero. */
  function ProjectionParam(p: Point, a: Point, b: Point): real {
    var c, d := b.x - a.x, b.y - a.y;
    var lenSq := c * c + d * d;
    if lenSq != 0.0 then ((p.x - a.x) * c + (p.y - a.y) * d) / lenSq else -1.0
  }

  /** The point of segment `a`-`b` nearest to `p`: the projection clamped to the segment. */
  function ClosestOnSegment(p: Point, a: Point, b: Point): Point {
    var t := ProjectionParam(p, a, b);
    if t < 0.0 then Point(a.x, a.y, None)
    else if t > 1.0 then Point(b.x, b.y, None)
    else Along(a, b, t)
  }

  /** Squared point-to-segment distance (the square of `pointToLineDistance`). */
  function SegmentDistSq(p: Point, a: Point, b: Point): real {
    DistSq(p, ClosestOnSegment(p, a, b))
  }

  /** The point at fraction `t` of the way from `a` to `b` (no pressure). */
  function Along(a: Point, b: Point, t: real): Point {
    Point(a.x + t * (b.x - a.x), a.y + t * (b.y - a.y), None)
  }

  lemma DotAlong(c: real, d: real, t: real)
    ensures (t * c) * c + (t * d) * d == t * (c * c + d * d)
  {
  }

  lemma Cancel(n: real, l: real)
    requires l != 0.0
    ensures (n * l) / l == n
  {
  }

  lemma ScaledZero(c: real, d: real, t: real)
    requires c * c + d * d == 0.0
    ensures (t * c) * (t * c) + (t * d) * (t * d) == 0.0
  {
    assert (t * c) * (t * c) + (t * d) * (t * d) == t * t * (c * c + d * d);
  }

  /** A point on a segment is at distance zero from it. */
  lemma PointOnSegment(a: Point, b: Point, t: real)
    requires 0.0 <= t <= 1.0
    ensures SegmentDistSq(Along(a, b, t), a, b) == 0.0
  {
    var p := Along(a, b, t);
    var c, d := b.x - a.x, b.y - a.y;
    assert p.x - a.x == t * c && p.y - a.y == t * d;
    var lenSq := c * c + d * d;
    if lenSq != 0.0 {
      DotAlong(c, d, t);
      Cancel(t, lenSq);
      assert ProjectionParam(p, a, b) == t;
    } else {
      ScaledZero(c, d, t);
      assert ProjectionParam(p, a, b) == -1.0;
      assert ClosestOnSegment(p, a, b) == Point(a.x, a.y, None);
      assert DistSq(p, Point(a.x, a.y, None)) == (t * c) * (t * c) + (t * d) * (t * d);
    }
  }

  /** Sample `i` of the stroke, or the segment ending at it, lies within `total` of `p`. */
  predicate HitAt(s: DrawingStroke, p: Point, total: real, i: int)
    requires 0 <= i < |s.points|
  {
    WithinRadius(DistSq(s.points[i], p), total) ||
    (i > 0 && WithinRadius(SegmentDistSq(p, s.points[i - 1], s.points[i]), total))
  }

  /** The eraser at `p` with radius `radius` touches the stroke: some sample or some segment
      is within `radius + width / 2`. */
  predicate StrokeHit(s: DrawingStroke, p: Point, radius: real) {
    HitWithin(s, p, radius + s.width / 2.0)
  }

  predicate HitWithin(s: DrawingStroke, p: Point, total: real) {
    exists i :: 0 <= i < |s.points| && HitAt(s, p, total, i)
  }

  /** `strokeIntersectsPoint`: scans the samples in order and stops at the first hit. */
  method StrokeIntersectsPoint(s: DrawingStroke, p: Point, radius: real) returns (hit: bool)
    ensures hit <==> StrokeHit(s, p, radius)
  {
    var total := radius + s.width / 2.0;
    var i := 0;
    while i < |s.points|
      invariant 0 <= i <= |s.points|
      invariant forall k :: 0 <= k < i ==> !HitAt(s, p, total, k)
    {
      var q := s.points[i];
      if WithinRadius(DistSq(q, p), total) {
        assert HitAt(s, p, total, i);
        return true;
      }
      if i > 0 {
        if WithinRadius(SegmentDistSq(p, s.points[i - 1], q), total) {
          assert HitAt(s, p, total, i);
          return true;
        }
      }
      i := i + 1;
    }
    return false;
  }

  /** A query point placed exactly on a sample is a hit for every radius that is not
      smaller than minus half the width. */
  lemma SampleIsHit(s: DrawingStroke, i: int, p: Point, radius: real)
    requires 0 <= i < |s.points| && p.x == s.points[i].x && p.y == s.points[i].y
    requires radius + s.width / 2.0 >= 0.0
    ensures StrokeHit(s, p, radius)
  {
    assert HitAt(s, p, radius + s.width / 2.0, i);
  }

  /** A query point on any segment of the stroke's path is a hit. */
  lemma PathPointIsHit(s: DrawingStroke, i: int, t: real, radius: real)
    requires 0 < i < |s.points| && 0.0 <= t <= 1.0
    requires radius + s.width / 2.0 >= 0.0
    ensures StrokeHit(s, Along(s.points[i - 1], s.points[i], t), radius)
  {
    var a, b := s.points[i - 1], s.points[i];
    PointOnSegment(a, b, t);
    var total := radius + s.width / 2.0;
    assert total * total >= 0.0;
    assert WithinRadius(0.0, total);
    var p := Along(a, b, t);
    assert HitAt(s, p, total, i);
    assert HitWithin(s, p, total);
  }
}
