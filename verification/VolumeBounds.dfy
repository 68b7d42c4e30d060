/** The bounding box of an operational volume, as internal/service/deconfliction/conflict.go computes it, and what it
    encloses. */
module VolumeBounds {
  import opened Plane
  import opened RayParity
  import opened RouteCoverage
  import opened Domain

  datatype Bounds = Bounds(minLat: real, maxLat: real, minLon: real, maxLon: real)

  function Lower(a: real, b: real): real { if a <= b then a else b }

  function Upper(a: real, b: real): real { if a >= b then a else b }

  predicate ValidPosition(p: Point) { -180.0 <= p.x <= 180.0 && -90.0 <= p.y <= 90.0 }

  /** The tightest box around a non-empty chain of positions. */
  function BoxOf(ring: Ring): Bounds
    requires |ring| > 0
  {
    var last := ring[|ring| - 1];
    if |ring| == 1 then Bounds(last.y, last.y, last.x, last.x)
    else
      var rest := BoxOf(ring[..|ring| - 1]);
      Bounds(Lower(rest.minLat, last.y), Upper(rest.maxLat, last.y), Lower(rest.minLon, last.x),
        Upper(rest.maxLon, last.x))
  }

  predicate InBox(b: Bounds, p: Point) { b.minLat <= p.y <= b.maxLat && b.minLon <= p.x <= b.maxLon }

  /** Every position is in the box, and each side of the box touches one. */
  lemma {:induction false} BoxIsTight(ring: Ring)
    requires |ring| > 0
    ensures forall i :: 0 <= i < |ring| ==> InBox(BoxOf(ring), ring[i])
    ensures exists i :: 0 <= i < |ring| && ring[i].y == BoxOf(ring).minLat
    ensures exists i :: 0 <= i < |ring| && ring[i].y == BoxOf(ring).maxLat
    ensures exists i :: 0 <= i < |ring| && ring[i].x == BoxOf(ring).minLon
    ensures exists i :: 0 <= i < |ring| && ring[i].x == BoxOf(ring).maxLon
  {
    if |ring| > 1 {
      var rest := ring[..|ring| - 1];
      BoxIsTight(rest);
      assert forall i :: 0 <= i < |rest| ==> ring[i] == rest[i];
      assert ring[|ring| - 1] == ring[|rest|];
    } else {
      assert ring[0] == ring[|ring| - 1];
    }
  }

  /** geoJSONBounds on a decoded geometry; None stands for each of its errors. */
  function GeometryBounds(g: Geometry): Option<Bounds> {
    if !g.Rings? || |g.rings| == 0 || |g.rings[0]| < 4 ||
      (exists i :: 0 <= i < |g.rings[0]| && !ValidPosition(g.rings[0][i]))
       || !Closed(g.rings[0])
    then None
    else
      var box := BoxOf(g.rings[0]);
      if box.maxLon - box.minLon > 180.0 then None else Some(box)
  }

  /** The loop of geoJSONBounds over the exterior ring. */
  method ExteriorBounds(exterior: Ring) returns (r: Option<Bounds>)
    ensures r == GeometryBounds(Rings([exterior]))
  {
    assert Rings([exterior]).rings[0] == exterior;
    if |exterior| < 4 {
      return None;
    }
    var box := Bounds(exterior[0].y, exterior[0].y, exterior[0].x, exterior[0].x);
    var i := 0;
    while i < |exterior|
      invariant 0 <= i <= |exterior|
      invariant i > 0 ==> box == BoxOf(exterior[..i])
      invariant i == 0 ==> box == Bounds(exterior[0].y, exterior[0].y, exterior[0].x, exterior[0].x)
      invariant forall j :: 0 <= j < i ==> ValidPosition(exterior[j])
    {
      if !ValidPosition(exterior[i]) {
        return None;
      }
      assert exterior[..i + 1][..i] == exterior[..i];
      box := Bounds(Lower(box.minLat, exterior[i].y), Upper(box.maxLat, exterior[i].y),
                    Lower(box.minLon, exterior[i].x), Upper(box.maxLon, exterior[i].x));
      i := i + 1;
    }
    assert exterior[..i] == exterior;
    if exterior[0] != exterior[|exterior| - 1] || box.maxLon - box.minLon > 180.0 {
      return None;
    }
    return Some(box);
  }

  /** expanded: the buffered box, unless the buffer is negative or crosses the antimeridian. */
  function Expanded(b: Bounds, m: Margin): Option<Bounds> {
    match m
    case NoMargin => Some(b)
    case InvalidMargin => None
    case Margin(latitude, longitude) =>
      var wide := Bounds(Upper(-90.0, b.minLat - latitude), Lower(90.0, b.maxLat + latitude), b.minLon - longitude,
          b.maxLon + longitude);
      if wide.minLon < -180.0 || wide.maxLon > 180.0 then None else Some(wide)
  }

  predicate Overlaps(a: Bounds, b: Bounds) {
    a.minLat <= b.maxLat && b.minLat <= a.maxLat && a.minLon <= b.maxLon && b.minLon <= a.maxLon
  }

  lemma CommonPointOverlaps(a: Bounds, b: Bounds, p: Point)
    requires InBox(a, p) && InBox(b, p)
    ensures Overlaps(a, b)
  {
  }

  /* ---- what a box encloses ---- */

  /** The closed region of a polygon's exterior ring, whatever its holes leave out. */
  ghost predicate InFootprint(polygon: Polygon, p: Point) {
    |polygon| > 0 && (StrictlyInside(polygon[0], p) || OnBoundary(polygon[0], p))
  }

  /** A covered point is in the footprint when the exterior ring repeats no vertex. */
  lemma CoveredIsInFootprint(polygon: Polygon, p: Point)
    requires Covers(polygon, p) && !RepeatsVertex(polygon[0])
    ensures InFootprint(polygon, p)
  {
    BoundaryTestExact(polygon[0]);
  }

  ghost predicate BoxHolds(b: Bounds, ring: Ring) { forall i :: 0 <= i < |ring| ==> InBox(b, ring[i]) }

  lemma BoundaryInBox(ring: Ring, b: Bounds, p: Point)
    requires BoxHolds(b, ring) && OnBoundary(ring, p)
    ensures InBox(b, p)
  {
    var i :| 1 <= i < |ring| && EdgeHolds(ring, i, p);
    BetweenInBox(b, p, ring[i - 1], ring[i]);
  }

  lemma BetweenInBox(b: Bounds, p: Point, u: Point, v: Point)
    requires InBox(b, u) && InBox(b, v) && Between(p, u, v)
    ensures InBox(b, p)
  {
    var t :| 0.0 <= t <= 1.0 && p == Along(u, v, t);
    BlendBounds(u.x, v.x, t, p.x);
    BlendBounds(u.y, v.y, t, p.y);
  }

  /** A crossing to the right of `p` lies in the box. */
  lemma CrossingInBox(b: Bounds, p: Point, u: Point, v: Point)
    requires InBox(b, u) && InBox(b, v) && Crosses(p, u, v)
    ensures b.minLat <= p.y <= b.maxLat && p.x <= b.maxLon
  {
    var t := OnLine(u, v, p.y);
    BlendBounds(u.x, v.x, t, LineX(u, v, p.y));
  }

  lemma StraddleCrosses(b: Bounds, p: Point, u: Point, v: Point)
    requires InBox(b, u) && InBox(b, v) && p.x < b.minLon
    ensures Crosses(p, u, v) <==> (u.y > p.y) != (v.y > p.y)
  {
    if (u.y > p.y) != (v.y > p.y) {
      var t := OnLine(u, v, p.y);
      BlendBounds(u.x, v.x, t, LineX(u, v, p.y));
    }
  }

  lemma {:induction false} NoCrossings(ring: Ring, b: Bounds, p: Point, n: nat)
    requires BoxHolds(b, ring) && n <= |ring| && (p.x > b.maxLon || p.y < b.minLat || p.y > b.maxLat)
    ensures !ParityUpTo(ring, p, n)
  {
    if n > 0 {
      NoCrossings(ring, b, p, n - 1);
      if Crosses(p, ring[n - 1], Before(ring, n - 1)) {
        assert InBox(b, ring[n - 1]) && InBox(b, Before(ring, n - 1));
        CrossingInBox(b, p, ring[n - 1], Before(ring, n - 1));
      }
    }
  }

  /** Left of the box every edge that passes the point's height is crossed, so the parity follows the heights of
      the chain's ends. */
  lemma {:induction false} LeftParity(ring: Ring, b: Bounds, p: Point, n: nat)
    requires BoxHolds(b, ring) && Closed(ring) && 1 <= n <= |ring| && p.x < b.minLon
    ensures ParityUpTo(ring, p, n) == ((ring[0].y > p.y) != (ring[n - 1].y > p.y))
  {
    assert InBox(b, ring[n - 1]) && InBox(b, Before(ring, n - 1));
    StraddleCrosses(b, p, ring[n - 1], Before(ring, n - 1));
    if n > 1 {
      LeftParity(ring, b, p, n - 1);
    } else {
      assert !ParityUpTo(ring, p, 0);
    }
  }

  /** Everything inside a closed exterior ring or on it lies in its box. */
  lemma FootprintInBox(polygon: Polygon, p: Point)
    requires |polygon| > 0 && Closed(polygon[0]) && InFootprint(polygon, p)
    ensures InBox(BoxOf(polygon[0]), p)
  {
    var ring, b := polygon[0], BoxOf(polygon[0]);
    BoxIsTight(ring);
    assert BoxHolds(b, ring);
    if OnBoundary(ring, p) {
      BoundaryInBox(ring, b, p);
    } else if !InBox(b, p) {
      if p.x < b.minLon {
        LeftParity(ring, b, p, |ring|);
      } else {
        NoCrossings(ring, b, p, |ring|);
      }
    }
  }

  /** A volume's box, buffered or not, holds its whole footprint within the valid latitudes. */
  lemma ExpandedHolds(v: Volume, p: Point)
    requires GeometryBounds(v.geometry).Some? && Expanded(GeometryBounds(v.geometry).value, v.margin).Some?
    requires InFootprint(v.geometry.rings, p)
    ensures InBox(Expanded(GeometryBounds(v.geometry).value, v.margin).value, p)
  {
    FootprintInBox(v.geometry.rings, p);
    var ring := v.geometry.rings[0];
    BoxIsTight(ring);
    var low :| 0 <= low < |ring| && ring[low].y == BoxOf(ring).minLat;
    var high :| 0 <= high < |ring| && ring[high].y == BoxOf(ring).maxLat;
    assert ValidPosition(ring[low]) && ValidPosition(ring[high]);
  }
}
