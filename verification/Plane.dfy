/** Points, segments and rings of internal/store/durable/memory/spatial.go, with exact real
    coordinates and every tolerance equal to zero. */
module Plane {
  datatype Point = Point(x: real, y: real)
  type Ring = seq<Point>
  type Polygon = seq<Ring>

  function Minus(a: Point, b: Point): Point { Point(a.x - b.x, a.y - b.y) }

  function Cross(u: Point, v: Point): real { u.x * v.y - u.y * v.x }

  function Dot(u: Point, v: Point): real { u.x * v.x + u.y * v.y }

  function Scaled(u: Point, t: real): Point { Point(u.x * t, u.y * t) }

  function Blend(u: real, v: real, s: real): real { u + (v - u) * s }

  /** The point reached after the fraction `t` of the way from `a` to `b`. */
  function Along(a: Point, b: Point, t: real): Point {
    Point(Blend(a.x, b.x, t), Blend(a.y, b.y, t))
  }

  /** A ring as GeoJSON decoding leaves it: at least four positions, the last one repeating the first. */
  predicate Closed(ring: Ring) {
    |ring| >= 4 && ring[0] == ring[|ring| - 1]
  }

  predicate ClosedRings(polygon: Polygon) {
    forall k :: 0 <= k < |polygon| ==> Closed(polygon[k])
  }

  /** missionPointOnSegment. */
  predicate PointOnSegment(point: Point, start: Point, end: Point) {
    var offset, direction := Minus(point, start), Minus(end, start);
    && Cross(offset, direction) == 0.0
    && Dot(offset, direction) >= 0.0
    && Dot(offset, direction) <= Dot(direction, direction)
  }

  /** The point lies on the straight segment: the meaning PointOnSegment is meant to have. */
  ghost predicate Between(point: Point, start: Point, end: Point) {
    exists t :: 0.0 <= t <= 1.0 && point == Along(start, end, t)
  }

  /** Exactly when the test means "on the segment": a repeated vertex makes it accept the whole plane. */
  lemma PointOnSegmentMeaning(point: Point, start: Point, end: Point)
    ensures PointOnSegment(point, start, end) <==> start == end || Between(point, start, end)
    ensures (PointOnSegment(point, start, end) <==> Between(point, start, end)) <==> (start != end || point == start)
  {
    if start == end {
      assert point == start ==> point == Along(start, end, 0.0);
    } else if PointOnSegment(point, start, end) {
      var t := SegmentParameter(point, start, end);
    }
    if Between(point, start, end) {
      var t :| 0.0 <= t <= 1.0 && point == Along(start, end, t);
      AlongIsOnSegment(start, end, t);
    }
  }

  lemma AlongIsOnSegment(start: Point, end: Point, t: real)
    requires 0.0 <= t <= 1.0
    ensures PointOnSegment(Along(start, end, t), start, end)
  {
    ScaledDirection(Minus(end, start), t);
    assert Minus(Along(start, end, t), start) == Scaled(Minus(end, start), t);
  }

  lemma ScaledDirection(u: Point, t: real)
    requires 0.0 <= t <= 1.0
    ensures Cross(Scaled(u, t), u) == 0.0
    ensures 0.0 <= Dot(Scaled(u, t), u) <= Dot(u, u)
  {
    var sq := Dot(u, u);
    assert u.x * u.x >= 0.0 && u.y * u.y >= 0.0;
    assert Dot(Scaled(u, t), u) == t * sq;
    assert 0.0 <= t * sq <= sq;
  }

  /** The parameter of a point accepted on a proper segment. */
  lemma SegmentParameter(point: Point, start: Point, end: Point) returns (t: real)
    requires PointOnSegment(point, start, end) && start != end
    ensures 0.0 <= t <= 1.0 && point == Along(start, end, t)
  {
    hide Cross, Dot;
    var p, d := Minus(point, start), Minus(end, start);
    t := ParallelParameter(p, d);
    AlongFromOffset(point, start, end, t);
  }

  lemma AlongFromOffset(point: Point, start: Point, end: Point, t: real)
    requires Minus(point, start) == Scaled(Minus(end, start), t)
    ensures point == Along(start, end, t)
  {
  }

  lemma ParallelParameter(p: Point, d: Point) returns (t: real)
    requires Cross(p, d) == 0.0 && 0.0 <= Dot(p, d) <= Dot(d, d) && d != Point(0.0, 0.0)
    ensures 0.0 <= t <= 1.0 && p == Scaled(d, t)
  {
    PositiveNorm(d);
    t := QuotientInUnit(Dot(p, d), Dot(d, d));
    ParallelScale(p, d, t);
  }

  lemma ParallelScale(p: Point, d: Point, t: real)
    requires Cross(p, d) == 0.0 && d != Point(0.0, 0.0) && t * Dot(d, d) == Dot(p, d)
    ensures p == Scaled(d, t)
  {
    PositiveNorm(d);
    Projection(p, d);
    hide Cross, Dot;
    ScaledQuotient(Dot(p, d), Dot(d, d), t, d.x, p.x);
    ScaledQuotient(Dot(p, d), Dot(d, d), t, d.y, p.y);
  }

  lemma PositiveNorm(d: Point)
    requires d != Point(0.0, 0.0)
    ensures Dot(d, d) > 0.0
  {
    SquareSign(d.x, d.x * d.x);
    SquareSign(d.y, d.y * d.y);
  }

  lemma SquareSign(a: real, square: real)
    requires square == a * a
    ensures a == 0.0 ==> square == 0.0
    ensures a != 0.0 ==> square > 0.0
  {
    if a > 0.0 {
      PositiveProduct(a, a, square);
    } else if a < 0.0 {
      PositiveProduct(-a, -a, square);
    }
  }

  lemma PositiveProduct(a: real, b: real, product: real)
    requires a > 0.0 && b > 0.0 && product == a * b
    ensures product > 0.0
  {
  }

  /** A vector parallel to `d` is its own projection onto `d`. */
  lemma Projection(p: Point, d: Point)
    requires Cross(p, d) == 0.0
    ensures Dot(p, d) * d.x == p.x * Dot(d, d)
    ensures Dot(p, d) * d.y == p.y * Dot(d, d)
  {
    var c := Cross(p, d);
    assert Dot(p, d) * d.x == p.x * Dot(d, d) - c * d.y;
    assert Dot(p, d) * d.y == p.y * Dot(d, d) + c * d.x;
  }

  lemma QuotientInUnit(a: real, b: real) returns (t: real)
    requires 0.0 <= a <= b && b > 0.0
    ensures 0.0 <= t <= 1.0 && t * b == a
  {
    t := a / b;
    assert t * b == a;
    assert t < 0.0 ==> t * b < 0.0;
    assert t > 1.0 ==> (t - 1.0) * b > 0.0;
  }

  lemma ScaledQuotient(dot: real, sq: real, t: real, d: real, p: real)
    requires sq > 0.0 && t * sq == dot && dot * d == p * sq
    ensures d * t == p
  {
    assert (d * t) * sq == d * (t * sq);
    assert (d * t - p) * sq == 0.0;
  }
}
