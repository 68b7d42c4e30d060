/** missionPolygonCoversPoint and missionPolygonCoversSegment: sampling one midpoint between
    consecutive break parameters decides whether every point of a leg is covered. */
module RouteCoverage {
  import opened Plane
  import opened RayParity

  /** A point is covered by the exterior ring unless some hole holds it strictly inside before any
      earlier hole has it on its boundary; a hole boundary is itself covered. */
  ghost predicate Covers(polygon: Polygon, p: Point) {
    && |polygon| > 0
    && (OnRing(polygon[0], p) || StrictlyInside(polygon[0], p))
    && forall k :: 1 <= k < |polygon| ==> Admits(polygon, k, p)
  }

  ghost predicate Admits(polygon: Polygon, k: nat, p: Point)
    requires 1 <= k < |polygon|
  {
    OnRing(polygon[k], p) || !StrictlyInside(polygon[k], p) || exists j :: 1 <= j < k && OnRing(polygon[j], p)
  }

  ghost predicate CoversLeg(polygon: Polygon, start: Point, end: Point) {
    forall t :: 0.0 <= t <= 1.0 ==> Covers(polygon, Along(start, end, t))
  }

  /** The two collinear parameters are kept only inside the leg. */
  function InUnit(value: real): seq<real> {
    if 0.0 <= value <= 1.0 then [value] else []
  }

  /** missionSegmentIntersectionParameters: where along the leg from `a` to `b` the edge from `c` to `d`
      is met, or where an overlapping edge begins and ends. */
  function IntersectionParameters(a: Point, b: Point, c: Point, d: Point): (breaks: seq<real>)
    ensures forall v :: v in breaks ==> 0.0 <= v <= 1.0
  {
    var r, s := Minus(b, a), Minus(d, c);
    var denominator := Cross(r, s);
    var numerator := Cross(Minus(c, a), r);
    if denominator == 0.0 then
      if numerator != 0.0 || Dot(r, r) == 0.0 then []
      else InUnit(Dot(Minus(c, a), r) / Dot(r, r)) + InUnit(Dot(Minus(d, a), r) / Dot(r, r))
    else
      var t := Cross(Minus(c, a), s) / denominator;
      var u := numerator / denominator;
      if 0.0 <= t <= 1.0 && 0.0 <= u <= 1.0 then [t] else []
  }

  method PointOnRing(ring: Ring, p: Point) returns (on: bool)
    ensures on <==> OnRing(ring, p)
  {
    var index := 1;
    while index < |ring|
      invariant 1 <= index
      invariant forall i :: 1 <= i < index && i < |ring| ==> !OnEdge(ring, i, p)
    {
      if PointOnSegment(p, ring[index - 1], ring[index]) {
        assert OnEdge(ring, index, p);
        return true;
      }
      index := index + 1;
    }
    return false;
  }

  method PointStrictlyInRing(ring: Ring, p: Point) returns (inside: bool)
    ensures inside <==> StrictlyInside(ring, p)
  {
    hide Crosses, LineX;
    inside := false;
    var i, j := 0, |ring| - 1;
    while i < |ring|
      invariant 0 <= i <= |ring|
      invariant j == if i == 0 then |ring| - 1 else i - 1
      invariant inside == ParityUpTo(ring, p, i)
    {
      if Crosses(p, ring[i], ring[j]) {
        inside := !inside;
      }
      i, j := i + 1, i;
    }
  }

  method PolygonCoversPoint(polygon: Polygon, p: Point) returns (covered: bool)
    ensures covered <==> Covers(polygon, p)
  {
    if |polygon| == 0 {
      return false;
    }
    var on := PointOnRing(polygon[0], p);
    var inside := PointStrictlyInRing(polygon[0], p);
    if !on && !inside {
      return false;
    }
    var k := 1;
    while k < |polygon|
      invariant 1 <= k <= |polygon|
      invariant forall j :: 1 <= j < k ==> !OnRing(polygon[j], p) && !StrictlyInside(polygon[j], p)
    {
      on := PointOnRing(polygon[k], p);
      if on {
        return true;
      }
      inside := PointStrictlyInRing(polygon[k], p);
      if inside {
        assert !Admits(polygon, k, p);
        return false;
      }
      k := k + 1;
    }
    return true;
  }

  predicate Ascending(values: seq<real>) {
    forall i, j :: 0 <= i < j < |values| ==> values[i] <= values[j]
  }

  /** The library sort the leg test relies on: the same values, ascending. */
  function SortReals(values: seq<real>): (sorted: seq<real>)
    ensures Ascending(sorted) && |sorted| == |values|
    ensures forall v :: v in sorted <==> v in values
  {
    if values == [] then [] else InsertReal(SortReals(values[1..]), values[0])
  }

  function InsertReal(values: seq<real>, v: real): (sorted: seq<real>)
    requires Ascending(values)
    ensures Ascending(sorted) && |sorted| == |values| + 1
    ensures forall w :: w in sorted <==> w == v || w in values
  {
    if values == [] then [v]
    else if v <= values[0] then [v] + values
    else
      var rest := InsertReal(values[1..], v);
      assert forall k :: 0 <= k < |values[1..]| ==> values[0] <= values[1..][k];
      assert forall w :: w in rest ==> values[0] <= w;
      assert forall i :: 0 <= i < |rest| ==> rest[i] in rest;
      [values[0]] + rest
  }

  ghost predicate BreaksOf(polygon: Polygon, start: Point, end: Point, breaks: seq<real>) {
    && 0.0 in breaks && 1.0 in breaks
    && (forall v :: v in breaks ==> 0.0 <= v <= 1.0)
    && forall k, i :: 0 <= k < |polygon| && 1 <= i < |polygon[k]| ==>
         EdgeBreaksIn(start, end, polygon[k][i - 1], polygon[k][i], breaks)
  }

  ghost predicate EdgeBreaksIn(start: Point, end: Point, c: Point, d: Point, breaks: seq<real>) {
    forall v :: v in IntersectionParameters(start, end, c, d) ==> v in breaks
  }

  /** The leg test answers for every point of the leg, not only for those it samples. */
  method PolygonCoversSegment(polygon: Polygon, start: Point, end: Point) returns (covered: bool)
    requires ClosedRings(polygon)
    ensures covered <==> CoversLeg(polygon, start, end)
  {
    var startCovered := PolygonCoversPoint(polygon, start);
    var endCovered := PolygonCoversPoint(polygon, end);
    assert Along(start, end, 0.0) == start && Along(start, end, 1.0) == end;
    if !startCovered || !endCovered {
      return false;
    }
    var breaks := CollectBreaks(polygon, start, end);
    breaks := SortReals(breaks);
    var index := 1;
    while index < |breaks|
      invariant 1 <= index
      invariant forall i :: 1 <= i < index && i < |breaks| ==>
        Covers(polygon, Along(start, end, (breaks[i - 1] + breaks[i]) / 2.0))
    {
      var middle := (breaks[index - 1] + breaks[index]) / 2.0;
      assert breaks[index - 1] in breaks && breaks[index] in breaks;
      var pieceCovered := PolygonCoversPoint(polygon, Along(start, end, middle));
      if !pieceCovered {
        return false;
      }
      index := index + 1;
    }
    MidpointsDecide(polygon, start, end, breaks);
    return true;
  }

  method CollectBreaks(polygon: Polygon, start: Point, end: Point) returns (breaks: seq<real>)
    ensures BreaksOf(polygon, start, end, breaks)
  {
    hide IntersectionParameters;
    breaks := [0.0, 1.0];
    var k := 0;
    while k < |polygon|
      invariant 0 <= k <= |polygon|
      invariant BreaksOf(polygon[..k], start, end, breaks)
    {
      var ring := polygon[k];
      var index := 1;
      while index < |ring|
        invariant 1 <= index
        invariant BreaksOf(polygon[..k], start, end, breaks)
        invariant forall i :: 1 <= i < index && i < |ring| ==> EdgeBreaksIn(start, end, ring[i - 1], ring[i], breaks)
      {
        ghost var earlier := breaks;
        breaks := breaks + IntersectionParameters(start, end, ring[index - 1], ring[index]);
        assert forall c, d :: EdgeBreaksIn(start, end, c, d, earlier) ==> EdgeBreaksIn(start, end, c, d, breaks);
        index := index + 1;
      }
      k := k + 1;
    }
    assert polygon[..k] == polygon;
  }

  /** Between two consecutive breaks the midpoint speaks for the closed piece around it. */
  lemma MidpointsDecide(polygon: Polygon, start: Point, end: Point, breaks: seq<real>)
    requires ClosedRings(polygon) && Ascending(breaks) && BreaksOf(polygon, start, end, breaks)
    requires forall i :: 1 <= i < |breaks| ==> Covers(polygon, Along(start, end, (breaks[i - 1] + breaks[i]) / 2.0))
    ensures CoversLeg(polygon, start, end)
  {
    hide IntersectionParameters, Covers, Closed;
    forall t | 0.0 <= t <= 1.0
      ensures Covers(polygon, Along(start, end, t))
    {
      var i := Bracket(breaks, t);
      var lo, hi := breaks[i - 1], breaks[i];
      assert lo in breaks && hi in breaks;
      NothingBetween(breaks, i);
      PieceCovered(polygon, start, end, lo, hi, t);
    }
  }

  lemma NothingBetween(breaks: seq<real>, i: nat)
    requires Ascending(breaks) && 1 <= i < |breaks|
    ensures forall v :: v in breaks ==> !(breaks[i - 1] < v < breaks[i])
  {
    forall v | v in breaks
      ensures !(breaks[i - 1] < v < breaks[i])
    {
      var j :| 0 <= j < |breaks| && breaks[j] == v;
      if j < i { assert breaks[j] <= breaks[i - 1]; } else { assert breaks[i] <= breaks[j]; }
    }
  }

  lemma Bracket(breaks: seq<real>, t: real) returns (i: nat)
    requires Ascending(breaks) && 0.0 <= t <= 1.0 && 0.0 in breaks && 1.0 in breaks
    ensures 1 <= i < |breaks| && breaks[i - 1] <= t <= breaks[i]
  {
    var first :| 0 <= first < |breaks| && breaks[first] == 0.0;
    var last :| 0 <= last < |breaks| && breaks[last] == 1.0;
    i := 1;
    while breaks[i] < t
      invariant 1 <= i <= last
      invariant breaks[i - 1] <= t
      decreases last - i
    {
      i := i + 1;
    }
  }

  ghost predicate NoBreakInside(polygon: Polygon, start: Point, end: Point, lo: real, hi: real) {
    forall k, i :: 0 <= k < |polygon| && 1 <= i < |polygon[k]| ==>
      EdgeUnbroken(start, end, polygon[k][i - 1], polygon[k][i], lo, hi)
  }

  ghost predicate EdgeUnbroken(start: Point, end: Point, c: Point, d: Point, lo: real, hi: real) {
    forall v :: v in IntersectionParameters(start, end, c, d) ==> !(lo < v < hi)
  }

  lemma PieceCovered(polygon: Polygon, start: Point, end: Point, lo: real, hi: real, t: real)
    requires ClosedRings(polygon) && 0.0 <= lo <= t <= hi <= 1.0
    requires NoBreakInside(polygon, start, end, lo, hi)
    requires Covers(polygon, Along(start, end, (lo + hi) / 2.0))
    ensures Covers(polygon, Along(start, end, t))
  {
    var m, p := Along(start, end, (lo + hi) / 2.0), Along(start, end, t);
    if lo < hi {
      forall k | 0 <= k < |polygon|
        ensures OnRing(polygon[k], m) ==> OnRing(polygon[k], p)
        ensures !OnRing(polygon[k], p) ==> StrictlyInside(polygon[k], m) == StrictlyInside(polygon[k], p)
      {
        RingOnPiece(polygon[k], start, end, lo, hi, t);
      }
      forall k | 1 <= k < |polygon|
        ensures Admits(polygon, k, p)
      {
        assert Admits(polygon, k, m);
      }
    }
  }

  /** One ring on a piece without breaks: met inside the piece it is met everywhere on the piece, and
      away from the ring the even-odd test has the midpoint's answer. */
  lemma RingOnPiece(ring: Ring, start: Point, end: Point, lo: real, hi: real, t: real)
    requires Closed(ring) && 0.0 <= lo < hi <= 1.0 && lo <= t <= hi
    requires forall i :: 1 <= i < |ring| ==> EdgeUnbroken(start, end, ring[i - 1], ring[i], lo, hi)
    ensures OnRing(ring, Along(start, end, (lo + hi) / 2.0)) ==> OnRing(ring, Along(start, end, t))
    ensures !OnRing(ring, Along(start, end, t)) ==>
      StrictlyInside(ring, Along(start, end, (lo + hi) / 2.0)) == StrictlyInside(ring, Along(start, end, t))
  {
    var middle := (lo + hi) / 2.0;
    var m, p := Along(start, end, middle), Along(start, end, t);
    forall u | lo < u < hi && OnRing(ring, Along(start, end, u))
      ensures OnRing(ring, p)
    {
      var i :| 1 <= i < |ring| && OnEdge(ring, i, Along(start, end, u));
      EdgeOnPiece(start, end, ring[i - 1], ring[i], lo, hi, u, t);
      assert OnEdge(ring, i, p);
    }
    if !OnRing(ring, p) {
      forall s | 0.0 <= s <= 1.0
        ensures !OnRing(ring, Along(m, p, s))
      {
        var u := Blend(middle, t, s);
        AlongAlong(start, end, middle, t, s);
        BlendBounds(middle, t, s, u);
      }
      ParityConstant(ring, m, p);
    }
  }

  lemma AlongAlong(a: Point, b: Point, u: real, v: real, s: real)
    ensures Along(Along(a, b, u), Along(a, b, v), s) == Along(a, b, Blend(u, v, s))
  {
    hide Blend;
    BlendBlend(a.x, b.x, u, v, s, Blend(a.x, b.x, u), Blend(a.x, b.x, v), Blend(u, v, s));
    BlendBlend(a.y, b.y, u, v, s, Blend(a.y, b.y, u), Blend(a.y, b.y, v), Blend(u, v, s));
  }

  lemma BlendBlend(x: real, y: real, u: real, v: real, s: real, xu: real, xv: real, w: real)
    requires xu == Blend(x, y, u) && xv == Blend(x, y, v) && w == Blend(u, v, s)
    ensures Blend(xu, xv, s) == Blend(x, y, w)
  {
    var d := y - x;
    assert xv - xu == d * (v - u);
    assert (xv - xu) * s == d * ((v - u) * s);
  }

  /** An edge met strictly between two breaks overlaps the whole closed piece. */
  lemma EdgeOnPiece(a: Point, b: Point, c: Point, d: Point, lo: real, hi: real, u: real, w: real)
    requires 0.0 <= lo < u < hi <= 1.0 && lo <= w <= hi && EdgeUnbroken(a, b, c, d, lo, hi)
    requires PointOnSegment(Along(a, b, u), c, d)
    ensures PointOnSegment(Along(a, b, w), c, d)
  {
    var r, s := Minus(b, a), Minus(d, c);
    if c == d || a == b {
      assert c == d || Along(a, b, w) == Along(a, b, u);
    } else {
      if Cross(r, s) == 0.0 {
        OverlapOnPiece(a, b, c, d, lo, hi, u, w);
      } else {
        TransversalBreak(a, b, c, d, u);
      }
    }
  }

  lemma TransversalBreak(a: Point, b: Point, c: Point, d: Point, u: real)
    requires Cross(Minus(b, a), Minus(d, c)) != 0.0 && 0.0 <= u <= 1.0
    requires c != d && PointOnSegment(Along(a, b, u), c, d)
    ensures u in IntersectionParameters(a, b, c, d)
  {
    hide Cross, Dot;
    var r, s, w := Minus(b, a), Minus(d, c), Minus(c, a);
    var v := SegmentParameter(Along(a, b, u), c, d);
    Meeting(a, b, c, d, u, v);
    QuotientOf(Cross(w, s), Cross(r, s), u);
    QuotientOf(Cross(w, r), Cross(r, s), v);
  }

  lemma QuotientOf(a: real, b: real, q: real)
    requires a == q * b && b != 0.0
    ensures a / b == q
  {
  }

  lemma Meeting(a: Point, b: Point, c: Point, d: Point, u: real, v: real)
    requires Along(a, b, u) == Along(c, d, v)
    ensures Minus(c, a) == Minus(Scaled(Minus(b, a), u), Scaled(Minus(d, c), v))
    ensures Cross(Minus(c, a), Minus(d, c)) == u * Cross(Minus(b, a), Minus(d, c))
    ensures Cross(Minus(c, a), Minus(b, a)) == v * Cross(Minus(b, a), Minus(d, c))
  {
    hide Cross;
    CrossOfCombination(Minus(b, a), Minus(d, c), u, v);
  }

  lemma CrossOfCombination(r: Point, s: Point, u: real, v: real)
    ensures Cross(Minus(Scaled(r, u), Scaled(s, v)), s) == u * Cross(r, s)
    ensures Cross(Minus(Scaled(r, u), Scaled(s, v)), r) == v * Cross(r, s)
  {
  }

  /** On a collinear edge the piece cannot run past an end of the edge, since both ends are breaks. */
  lemma OverlapOnPiece(a: Point, b: Point, c: Point, d: Point, lo: real, hi: real, u: real, w: real)
    requires 0.0 <= lo < u < hi <= 1.0 && lo <= w <= hi && EdgeUnbroken(a, b, c, d, lo, hi)
    requires a != b && c != d && Cross(Minus(b, a), Minus(d, c)) == 0.0
    requires PointOnSegment(Along(a, b, u), c, d)
    ensures PointOnSegment(Along(a, b, w), c, d)
  {
    hide Cross, Dot, PointOnSegment, IntersectionParameters;
    var tc, k, v := CollinearEnds(a, b, c, d, u);
    UnitScale(if k >= 0.0 then k else -k, v, if k >= 0.0 then k * v else -(k * v));
    assert tc in IntersectionParameters(a, b, c, d) <== 0.0 <= tc <= 1.0;
    assert tc + k in IntersectionParameters(a, b, c, d) <== 0.0 <= tc + k <= 1.0;
    var q;
    if k > 0.0 { q := QuotientInUnit(w - tc, k); } else { q := QuotientInUnit(tc - w, -k); }
    assert w == tc + k * q;
    CollinearPoint(a, b, c, d, tc, k, q, w);
    AlongIsOnSegment(c, d, q);
  }

  lemma CollinearPoint(a: Point, b: Point, c: Point, d: Point, tc: real, k: real, q: real, w: real)
    requires Minus(c, a) == Scaled(Minus(b, a), tc) && Minus(d, c) == Scaled(Minus(b, a), k)
    requires w == tc + k * q
    ensures Along(c, d, q) == Along(a, b, w)
  {
    hide Blend;
    CollinearCoordinate(a.x, b.x, c.x, d.x, tc, k, q, w);
    CollinearCoordinate(a.y, b.y, c.y, d.y, tc, k, q, w);
  }

  lemma CollinearCoordinate(a: real, b: real, c: real, d: real, tc: real, k: real, q: real, w: real)
    requires c - a == (b - a) * tc && d - c == (b - a) * k && w == tc + k * q
    ensures Blend(c, d, q) == Blend(a, b, w)
  {
    Distribute(b - a, tc, k, q, w);
  }

  lemma Distribute(x: real, tc: real, k: real, q: real, w: real)
    requires w == tc + k * q
    ensures x * w == x * tc + (x * k) * q
  {
    assert (x * k) * q == x * (k * q);
  }

  /** A collinear edge begins at the parameter `tc` of the leg and ends at `tc + k`. */
  lemma CollinearEnds(a: Point, b: Point, c: Point, d: Point, u: real) returns (tc: real, k: real, v: real)
    requires a != b && c != d && Cross(Minus(b, a), Minus(d, c)) == 0.0
    requires PointOnSegment(Along(a, b, u), c, d)
    ensures Minus(c, a) == Scaled(Minus(b, a), tc) && Minus(d, c) == Scaled(Minus(b, a), k)
    ensures k != 0.0 && 0.0 <= v <= 1.0 && u == tc + k * v
    ensures IntersectionParameters(a, b, c, d) == InUnit(tc) + InUnit(tc + k)
  {
    var r, s := Minus(b, a), Minus(d, c);
    v := SegmentParameter(Along(a, b, u), c, d);
    Meeting(a, b, c, d, u, v);
    PositiveNorm(r);
    k := Dot(s, r) / Dot(r, r);
    CrossSwap(r, s);
    ParallelScale(s, r, k);
    tc := u - k * v;
    ScaledCombination(r, u, k, v, tc);
    ScaledSum(r, a, c, d, tc, k);
    ScaledDot(r, tc);
    ScaledDot(r, tc + k);
    hide Cross, Dot;
  }

  lemma CrossSwap(r: Point, s: Point)
    ensures Cross(s, r) == -Cross(r, s)
  {
  }

  lemma ScaledCombination(r: Point, u: real, k: real, v: real, t: real)
    requires t == u - k * v
    ensures Minus(Scaled(r, u), Scaled(Scaled(r, k), v)) == Scaled(r, t)
  {
    Distribute(r.x, t, k, v, u);
    Distribute(r.y, t, k, v, u);
  }

  lemma ScaledSum(r: Point, a: Point, c: Point, d: Point, tc: real, k: real)
    requires Minus(c, a) == Scaled(r, tc) && Minus(d, c) == Scaled(r, k)
    ensures Minus(d, a) == Scaled(r, tc + k)
  {
  }

  lemma ScaledDot(r: Point, t: real)
    requires Dot(r, r) != 0.0
    ensures Dot(Scaled(r, t), r) / Dot(r, r) == t
  {
    assert Dot(Scaled(r, t), r) == t * Dot(r, r);
    QuotientOf(Dot(Scaled(r, t), r), Dot(r, r), t);
  }

  /** The point lies on some edge of the ring, geometrically. */
  ghost predicate OnBoundary(ring: Ring, p: Point) {
    exists i :: 1 <= i < |ring| && EdgeHolds(ring, i, p)
  }

  ghost predicate EdgeHolds(ring: Ring, i: nat, p: Point)
    requires 1 <= i < |ring|
  {
    Between(p, ring[i - 1], ring[i])
  }

  predicate RepeatsVertex(ring: Ring) {
    exists i :: 1 <= i < |ring| && ring[i - 1] == ring[i]
  }

  /** The boundary test is the boundary exactly for rings that repeat no vertex. A repeated vertex puts
      every point of the plane "on the ring", so such an exterior ring encloses the whole plane. */
  lemma BoundaryTestExact(ring: Ring)
    ensures !RepeatsVertex(ring) <==> forall p :: OnRing(ring, p) <==> OnBoundary(ring, p)
    ensures RepeatsVertex(ring) ==> forall p :: OnRing(ring, p)
  {
    if RepeatsVertex(ring) {
      var i :| 1 <= i < |ring| && ring[i - 1] == ring[i];
      forall p
        ensures OnRing(ring, p)
      {
        assert OnEdge(ring, i, p);
      }
      var far := PointBeyond(ring, |ring|);
      BeyondIsOffBoundary(ring, far);
    } else {
      forall p
        ensures OnRing(ring, p) <==> OnBoundary(ring, p)
      {
        forall i | 1 <= i < |ring|
          ensures OnEdge(ring, i, p) <==> EdgeHolds(ring, i, p)
        {
          PointOnSegmentMeaning(p, ring[i - 1], ring[i]);
        }
      }
    }
  }

  lemma PointBeyond(ring: Ring, n: nat) returns (far: Point)
    requires n <= |ring|
    ensures forall i :: 0 <= i < n ==> ring[i].x < far.x
  {
    if n == 0 {
      far := Point(0.0, 0.0);
    } else {
      far := PointBeyond(ring, n - 1);
      if far.x <= ring[n - 1].x {
        far := Point(ring[n - 1].x + 1.0, 0.0);
      }
    }
  }

  lemma BeyondIsOffBoundary(ring: Ring, far: Point)
    requires forall i :: 0 <= i < |ring| ==> ring[i].x < far.x
    ensures !OnBoundary(ring, far)
  {
    forall i | 1 <= i < |ring|
      ensures !EdgeHolds(ring, i, far)
    {
      var a, b := ring[i - 1], ring[i];
      forall t | 0.0 <= t <= 1.0
        ensures far != Along(a, b, t)
      {
        BlendBounds(a.x, b.x, t, Blend(a.x, b.x, t));
      }
    }
  }
}
