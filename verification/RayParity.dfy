/** The even-odd ray test of missionPointStrictlyInRing and pointInRing, and why it cannot change
    along a piece of route that touches no ring edge. */
module RayParity {
  import opened Plane

  /** Where the line through `a` and `b` meets the horizontal line at height `y`. */
  function LineX(a: Point, b: Point, y: real): real
    requires a.y != b.y
  {
    (b.x - a.x) * (y - a.y) / (b.y - a.y) + a.x
  }

  /** The ray from `p` in the direction of growing x crosses the edge from `a` to `b`. */
  predicate Crosses(p: Point, a: Point, b: Point) {
    (a.y > p.y) != (b.y > p.y) && p.x < LineX(a, b, p.y)
  }

  /** The vertex before vertex `i`, going round the ring. */
  function Before(ring: Ring, i: nat): Point
    requires i < |ring|
  {
    if i == 0 then ring[|ring| - 1] else ring[i - 1]
  }

  /** The state of `inside` after the first `n` edges. */
  function ParityUpTo(ring: Ring, p: Point, n: nat): bool
    requires n <= |ring|
  {
    n > 0 && ParityUpTo(ring, p, n - 1) != Crosses(p, ring[n - 1], Before(ring, n - 1))
  }

  function StrictlyInside(ring: Ring, p: Point): bool {
    ParityUpTo(ring, p, |ring|)
  }

  /** missionPointOnRing: some edge of the ring accepts the point. */
  ghost predicate OnRing(ring: Ring, p: Point) {
    exists i :: 1 <= i < |ring| && OnEdge(ring, i, p)
  }

  predicate OnEdge(ring: Ring, i: nat, p: Point)
    requires 1 <= i < |ring|
  {
    PointOnSegment(p, ring[i - 1], ring[i])
  }

  /** `v` lies right of the piece of route from `p` to `q`, at a height the piece passes. */
  predicate RightOf(p: Point, q: Point, v: Point) {
    (p.y < v.y) != (q.y < v.y) && LineX(p, q, v.y) < v.x
  }

  ghost predicate Clear(p: Point, q: Point, a: Point, b: Point) {
    forall s :: 0.0 <= s <= 1.0 ==> !PointOnSegment(Along(p, q, s), a, b)
  }

  ghost predicate ClearOfRing(p: Point, q: Point, ring: Ring) {
    forall s :: 0.0 <= s <= 1.0 ==> !OnRing(ring, Along(p, q, s))
  }

  /** Along a piece clear of a closed ring the even-odd test has one answer. */
  lemma ParityConstant(ring: Ring, p: Point, q: Point)
    requires Closed(ring) && ClearOfRing(p, q, ring)
    ensures StrictlyInside(ring, p) == StrictlyInside(ring, q)
  {
    Telescope(ring, p, q, |ring|);
  }

  /** The edges met so far change the test by the two ends of the chain they form. */
  lemma {:induction false} Telescope(ring: Ring, p: Point, q: Point, n: nat)
    requires 1 <= n <= |ring| && Closed(ring) && ClearOfRing(p, q, ring)
    ensures (ParityUpTo(ring, p, n) != ParityUpTo(ring, q, n)) == (RightOf(p, q, ring[0]) != RightOf(p, q, ring[n - 1]))
  {
    if n == 1 {
      assert Before(ring, 0) == ring[0];
      assert !ParityUpTo(ring, p, 0) && !ParityUpTo(ring, q, 0);
      assert !Crosses(p, ring[0], ring[0]) && !Crosses(q, ring[0], ring[0]);
    } else {
      Telescope(ring, p, q, n - 1);
      var a, b := ring[n - 1], ring[n - 2];
      forall s | 0.0 <= s <= 1.0
        ensures !PointOnSegment(Along(p, q, s), b, a)
      {
        assert !OnEdge(ring, n - 1, Along(p, q, s));
      }
      CrossingChange(p, q, b, a);
      CrossesSymmetric(p, a, b);
      CrossesSymmetric(q, a, b);
    }
  }

  lemma CrossesSymmetric(p: Point, a: Point, b: Point)
    ensures Crosses(p, a, b) == Crosses(p, b, a)
  {
    if a.y != b.y {
      LineSymmetric(a, b, p.y);
    }
  }

  /** One edge: the crossing changes exactly when one of its two vertices lies right of the piece. */
  lemma CrossingChange(p: Point, q: Point, a: Point, b: Point)
    requires Clear(p, q, a, b)
    ensures (Crosses(p, a, b) != Crosses(q, a, b)) == (RightOf(p, q, a) != RightOf(p, q, b))
  {
    if a.y == b.y {
      if p.y != q.y { LevelEdge(p, q, a, b); }
    } else if p.y == q.y {
      LevelPiece(p, q, a, b);
    } else {
      SameSide(p, q, a, b);
    }
  }

  ghost predicate Spans(a: Point, b: Point, y: real) {
    a.y <= y <= b.y || b.y <= y <= a.y
  }

  /** At a height both pass, the edge is right of the piece. */
  predicate EdgeRight(p: Point, q: Point, a: Point, b: Point, y: real)
    requires p.y != q.y && a.y != b.y
  {
    LineX(p, q, y) < LineX(a, b, y)
  }

  lemma SameSide(p: Point, q: Point, a: Point, b: Point)
    requires Clear(p, q, a, b) && a.y != b.y && p.y != q.y
    ensures (Crosses(p, a, b) != Crosses(q, a, b)) == (RightOf(p, q, a) != RightOf(p, q, b))
  {
    hide LineX;
    LineEnds(p, q);
    LineEnds(a, b);
    forall y1, y2 | Spans(p, q, y1) && Spans(a, b, y1) && Spans(p, q, y2) && Spans(a, b, y2)
      ensures EdgeRight(p, q, a, b, y1) == EdgeRight(p, q, a, b, y2)
    {
      SideKept(p, q, a, b, y1, y2);
      SideKept(p, q, a, b, y2, y1);
    }
    assert EdgeRight(p, q, a, b, p.y) <==> p.x < LineX(a, b, p.y);
    assert EdgeRight(p, q, a, b, q.y) <==> q.x < LineX(a, b, q.y);
    assert EdgeRight(p, q, a, b, a.y) <==> LineX(p, q, a.y) < a.x;
    assert EdgeRight(p, q, a, b, b.y) <==> LineX(p, q, b.y) < b.x;
  }

  /** Changing sides between two common heights would mean meeting in between. */
  lemma SideKept(p: Point, q: Point, a: Point, b: Point, y1: real, y2: real)
    requires Clear(p, q, a, b) && a.y != b.y && p.y != q.y
    requires Spans(p, q, y1) && Spans(a, b, y1) && Spans(p, q, y2) && Spans(a, b, y2)
    ensures EdgeRight(p, q, a, b, y1) ==> EdgeRight(p, q, a, b, y2)
  {
    if EdgeRight(p, q, a, b, y1) && !EdgeRight(p, q, a, b, y2) {
      var s := MeetingOfSides(p, q, a, b, y1, y2);
    }
  }

  lemma MeetingOfSides(p: Point, q: Point, a: Point, b: Point, y1: real, y2: real) returns (s: real)
    requires a.y != b.y && p.y != q.y
    requires Spans(p, q, y1) && Spans(a, b, y1) && Spans(p, q, y2) && Spans(a, b, y2)
    requires EdgeRight(p, q, a, b, y1) && !EdgeRight(p, q, a, b, y2)
    ensures 0.0 <= s <= 1.0 && PointOnSegment(Along(p, q, s), a, b)
  {
    var y := MeetingHeight(p, q, a, b, y1, y2);
    hide LineX, PointOnSegment;
    s := OnLine(p, q, y);
    var t := OnLine(a, b, y);
    AlongIsOnSegment(a, b, t);
  }

  lemma MeetingHeight(p: Point, q: Point, a: Point, b: Point, y1: real, y2: real) returns (y: real)
    requires a.y != b.y && p.y != q.y
    requires Spans(p, q, y1) && Spans(a, b, y1) && Spans(p, q, y2) && Spans(a, b, y2)
    requires EdgeRight(p, q, a, b, y1) && !EdgeRight(p, q, a, b, y2)
    ensures Spans(p, q, y) && Spans(a, b, y) && LineX(p, q, y) == LineX(a, b, y)
  {
    hide LineX, Blend;
    var g1 := LineX(a, b, y1) - LineX(p, q, y1);
    var g2 := LineX(a, b, y2) - LineX(p, q, y2);
    var s := QuotientInUnit(g1, g1 - g2);
    y := Blend(y1, y2, s);
    LineAffine(a, b, y1, y2, s);
    LineAffine(p, q, y1, y2, s);
    MeetingGap(LineX(a, b, y1), LineX(a, b, y2), LineX(p, q, y1), LineX(p, q, y2), s);
    BlendBounds(y1, y2, s, y);
    SpansConvex(p, q, y1, y2, y);
    SpansConvex(a, b, y1, y2, y);
  }

  lemma SpansConvex(a: Point, b: Point, y1: real, y2: real, y: real)
    requires Spans(a, b, y1) && Spans(a, b, y2) && (y1 <= y <= y2 || y2 <= y <= y1)
    ensures Spans(a, b, y)
  {
  }

  lemma MeetingGap(e1: real, e2: real, l1: real, l2: real, s: real)
    requires s * ((e1 - l1) - (e2 - l2)) == e1 - l1
    ensures Blend(e1, e2, s) == Blend(l1, l2, s)
  {
  }

  lemma BlendBounds(y1: real, y2: real, s: real, y: real)
    requires 0.0 <= s <= 1.0 && y == Blend(y1, y2, s)
    ensures y1 <= y <= y2 || y2 <= y <= y1
  {
    if y2 >= y1 {
      UnitScale(y2 - y1, s, y - y1);
    } else {
      UnitScale(y1 - y2, s, y1 - y);
    }
  }

  lemma UnitScale(length: real, s: real, product: real)
    requires length >= 0.0 && 0.0 <= s <= 1.0 && product == length * s
    ensures 0.0 <= product <= length
  {
  }

  /** The point of a line at a height within its segment, as a point of the segment. */
  lemma OnLine(a: Point, b: Point, y: real) returns (t: real)
    requires a.y != b.y && Spans(a, b, y)
    ensures 0.0 <= t <= 1.0 && Along(a, b, t) == Point(LineX(a, b, y), y)
  {
    hide LineX, Blend;
    if a.y < b.y {
      t := QuotientInUnit(y - a.y, b.y - a.y);
    } else {
      t := QuotientInUnit(a.y - y, a.y - b.y);
    }
    LineAt(a, b, y, t);
  }

  lemma LineAt(a: Point, b: Point, y: real, t: real)
    requires a.y != b.y && t * (b.y - a.y) == y - a.y
    ensures LineX(a, b, y) == Blend(a.x, b.x, t) && y == Blend(a.y, b.y, t)
  {
    ProductQuotient(b.x - a.x, b.y - a.y, t);
  }

  lemma ProductQuotient(dx: real, dy: real, t: real)
    requires dy != 0.0
    ensures dx * (dy * t) / dy == dx * t
  {
    assert dx * (dy * t) == (dx * t) * dy;
  }

  lemma LineEnds(a: Point, b: Point)
    requires a.y != b.y
    ensures LineX(a, b, a.y) == a.x && LineX(a, b, b.y) == b.x
  {
    assert (b.x - a.x) * (b.y - a.y) / (b.y - a.y) == b.x - a.x;
  }

  lemma LineSymmetric(a: Point, b: Point, y: real)
    requires a.y != b.y
    ensures LineX(a, b, y) == LineX(b, a, y)
  {
    var k, l := Slope(a, b), Slope(b, a);
    LineBySlope(a, b, y);
    LineBySlope(b, a, y);
    assert k == l;
    assert k * (b.y - a.y) == b.x - a.x;
    assert k * (y - a.y) == k * (y - b.y) + k * (b.y - a.y);
  }

  function Slope(a: Point, b: Point): real
    requires a.y != b.y
  {
    (b.x - a.x) / (b.y - a.y)
  }

  lemma LineBySlope(a: Point, b: Point, y: real)
    requires a.y != b.y
    ensures LineX(a, b, y) == Slope(a, b) * (y - a.y) + a.x
  {
    var dx, dy, h := b.x - a.x, b.y - a.y, y - a.y;
    var k := dx / dy;
    assert k * dy == dx;
    assert dx * h == (k * h) * dy;
  }

  lemma LineAffine(a: Point, b: Point, y1: real, y2: real, s: real)
    requires a.y != b.y
    ensures LineX(a, b, Blend(y1, y2, s)) == Blend(LineX(a, b, y1), LineX(a, b, y2), s)
  {
    hide LineX, Slope, Blend;
    var y := Blend(y1, y2, s);
    LineBySlope(a, b, y1);
    LineBySlope(a, b, y2);
    LineBySlope(a, b, y);
    SlopeAffine(Slope(a, b), a, y1, y2, s, y, LineX(a, b, y1), LineX(a, b, y2), LineX(a, b, y));
  }

  lemma SlopeAffine(k: real, a: Point, y1: real, y2: real, s: real, y: real, x1: real, x2: real, x: real)
    requires y == Blend(y1, y2, s)
    requires x1 == k * (y1 - a.y) + a.x && x2 == k * (y2 - a.y) + a.x && x == k * (y - a.y) + a.x
    ensures x == Blend(x1, x2, s)
  {
    assert x2 - x1 == k * (y2 - y1);
    assert x - x1 == k * (y - y1) == k * ((y2 - y1) * s) == (k * (y2 - y1)) * s;
  }

  /** An edge at one height has both ends on the same side of a piece it does not meet. */
  lemma LevelEdge(p: Point, q: Point, a: Point, b: Point)
    requires Clear(p, q, a, b) && a.y == b.y && p.y != q.y
    ensures RightOf(p, q, a) == RightOf(p, q, b)
  {
    if RightOf(p, q, a) != RightOf(p, q, b) {
      var s := MeetingOnLevelEdge(p, q, a, b);
    }
  }

  lemma MeetingOnLevelEdge(p: Point, q: Point, a: Point, b: Point) returns (s: real)
    requires a.y == b.y && p.y != q.y && RightOf(p, q, a) != RightOf(p, q, b)
    ensures 0.0 <= s <= 1.0 && PointOnSegment(Along(p, q, s), a, b)
  {
    hide LineX;
    s := OnLine(p, q, a.y);
    LevelBetween(a, b, LineX(p, q, a.y));
  }

  lemma LevelBetween(a: Point, b: Point, x: real)
    requires a.y == b.y && (a.x <= x <= b.x || b.x <= x <= a.x) && a.x != b.x
    ensures PointOnSegment(Point(x, a.y), a, b)
  {
    var t;
    if a.x < b.x { t := QuotientInUnit(x - a.x, b.x - a.x); } else { t := QuotientInUnit(a.x - x, a.x - b.x); }
    AlongIsOnSegment(a, b, t);
  }

  /** A level piece has both ends on the same side of an edge it does not meet. */
  lemma LevelPiece(p: Point, q: Point, a: Point, b: Point)
    requires Clear(p, q, a, b) && a.y != b.y && p.y == q.y
    ensures Crosses(p, a, b) == Crosses(q, a, b)
  {
    if Crosses(p, a, b) != Crosses(q, a, b) {
      var s := MeetingOnLevelPiece(p, q, a, b);
    }
  }

  lemma MeetingOnLevelPiece(p: Point, q: Point, a: Point, b: Point) returns (s: real)
    requires a.y != b.y && p.y == q.y && Crosses(p, a, b) != Crosses(q, a, b)
    ensures 0.0 <= s <= 1.0 && PointOnSegment(Along(p, q, s), a, b)
  {
    hide LineX;
    var x := LineX(a, b, p.y);
    var t := OnLine(a, b, p.y);
    AlongIsOnSegment(a, b, t);
    if p.x < q.x { s := QuotientInUnit(x - p.x, q.x - p.x); } else { s := QuotientInUnit(p.x - x, p.x - q.x); }
    assert Along(p, q, s) == Point(x, p.y);
  }
}
