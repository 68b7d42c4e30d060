/** validateMissionAgainstIntent: which routes it authorizes, and how that agrees with the conformance
    monitor's sampleInsideVolume. Positions, altitudes and times are exact. */
module MissionAuthorization {
  import opened Domain
  import opened Plane
  import opened RayParity
  import opened RouteCoverage

  datatype MissionItem = MissionItem(sequence: nat, latitudeE7: int, longitudeE7: int, altitudeM: real)

  datatype Sample = Sample(longitude: real, latitude: real, altitudeM: real, recordedAt: int)

  datatype Finding =
    | UnsupportedVolumeTopology(found: nat)
    | UnsupportedAltitudeReference
    | AmbiguousVolumeTime
    | GeometryNotEvaluable
    | AltitudeOutside(sequence: nat)
    | ItemOutside(sequence: nat)
    | SegmentOutside(sequence: nat)

  datatype Coverage = InvalidGeometry | Coverage(uncoveredItems: seq<nat>, uncoveredSegments: seq<nat>)

  /** decodeMissionPolygon's checks on decoded rings. */
  predicate Decodes(geometry: Geometry) {
    geometry.Rings? && |geometry.rings| > 0 && ClosedRings(geometry.rings)
  }

  function Position(item: MissionItem): Point {
    Point(item.longitudeE7 as real / 10000000.0, item.latitudeE7 as real / 10000000.0)
  }

  ghost function UncoveredItems(polygon: Polygon, items: seq<MissionItem>, n: nat): seq<nat>
    requires n <= |items|
  {
    if n == 0 then []
    else UncoveredItems(polygon, items, n - 1) +
         (if Covers(polygon, Position(items[n - 1])) then [] else [items[n - 1].sequence])
  }

  /** The starting sequences of the first `n` legs that leave the footprint anywhere. */
  ghost function UncoveredSegments(polygon: Polygon, items: seq<MissionItem>, n: nat): seq<nat>
    requires n == 0 || n < |items|
  {
    if n == 0 then []
    else UncoveredSegments(polygon, items, n - 1) +
         (if CoversLeg(polygon, Position(items[n - 1]), Position(items[n])) then [] else [items[n - 1].sequence])
  }

  function Legs(items: seq<MissionItem>): nat {
    if |items| == 0 then 0 else |items| - 1
  }

  method CheckMissionCoverage(geometry: Geometry, items: seq<MissionItem>) returns (coverage: Coverage)
    ensures coverage.InvalidGeometry? <==> !Decodes(geometry)
    ensures Decodes(geometry) ==>
      coverage == Coverage(UncoveredItems(geometry.rings, items, |items|),
        UncoveredSegments(geometry.rings, items, Legs(items)))
  {
    if !geometry.Rings? || |geometry.rings| == 0 {
      return InvalidGeometry;
    }
    var polygon := geometry.rings;
    if exists k :: 0 <= k < |polygon| && !Closed(polygon[k]) {
      return InvalidGeometry;
    }
    var outsideItems, outsideSegments := [], [];
    var index := 0;
    while index < |items|
      invariant 0 <= index <= |items|
      invariant outsideItems == UncoveredItems(polygon, items, index)
      invariant outsideSegments == UncoveredSegments(polygon, items, if index < |items| then index else Legs(items))
    {
      var item, point := items[index], Position(items[index]);
      var covered := PolygonCoversPoint(polygon, point);
      if !covered {
        outsideItems := outsideItems + [item.sequence];
      }
      if index + 1 < |items| {
        covered := PolygonCoversSegment(polygon, point, Position(items[index + 1]));
        if !covered {
          outsideSegments := outsideSegments + [item.sequence];
        }
      }
      index := index + 1;
    }
    return Coverage(outsideItems, outsideSegments);
  }

  function AltitudeFindings(volume: Volume, items: seq<MissionItem>, n: nat): seq<Finding>
    requires n <= |items|
  {
    if n == 0 then []
    else AltitudeFindings(volume, items, n - 1) +
         (if volume.minAltitudeM <= items[n - 1].altitudeM <= volume.maxAltitudeM then []
          else [AltitudeOutside(items[n - 1].sequence)])
  }

  function AsItemFindings(sequences: seq<nat>): seq<Finding> {
    seq(|sequences|, i requires 0 <= i < |sequences| => ItemOutside(sequences[i]))
  }

  function AsSegmentFindings(sequences: seq<nat>): seq<Finding> {
    seq(|sequences|, i requires 0 <= i < |sequences| => SegmentOutside(sequences[i]))
  }

  /** The findings that block a route once one well-formed volume covers the whole intent window. */
  ghost function RouteFindings(volume: Volume, items: seq<MissionItem>): seq<Finding>
    requires Decodes(volume.geometry)
  {
    AltitudeFindings(volume, items, |items|)
    + AsItemFindings(UncoveredItems(volume.geometry.rings, items, |items|))
    + AsSegmentFindings(UncoveredSegments(volume.geometry.rings, items, Legs(items)))
  }

  /** One point of space lies in the authorized volume. */
  ghost predicate InVolume(volume: Volume, p: Point, altitudeM: real) {
    Decodes(volume.geometry) && Covers(volume.geometry.rings, p) &&
    volume.minAltitudeM <= altitudeM <= volume.maxAltitudeM
  }

  /** Every item, and every point of every straight leg between consecutive items, lies in the volume. */
  ghost predicate RouteInVolume(volume: Volume, items: seq<MissionItem>) {
    && Decodes(volume.geometry)
    && (forall i :: 0 <= i < |items| ==> InVolume(volume, Position(items[i]), items[i].altitudeM))
    && (forall i :: 0 <= i < Legs(items) ==> LegInVolume(volume, items[i], items[i + 1]))
  }

  ghost predicate LegInVolume(volume: Volume, a: MissionItem, b: MissionItem) {
    forall t :: 0.0 <= t <= 1.0 ==>
      InVolume(volume, Along(Position(a), Position(b), t), Blend(a.altitudeM, b.altitudeM, t))
  }

  predicate VolumeUsable(volumes: seq<Volume>, plannedStartAt: int, plannedEndAt: int) {
    |volumes| == 1 && volumes[0].altitudeRef == MSL && volumes[0].startsAt <= plannedStartAt &&
    plannedEndAt <= volumes[0].endsAt
  }

  /** A mission passes exactly when its whole flown route stays in the one authorized volume. `volumes`
      are those of the exact intent version. */
  method ValidateMissionAgainstIntent(plannedStartAt: int, plannedEndAt: int, volumes: seq<Volume>,
                                      items: seq<MissionItem>)
      returns (findings: seq<Finding>)
    ensures findings == [] <==> VolumeUsable(volumes, plannedStartAt, plannedEndAt) && RouteInVolume(volumes[0], items)
    ensures |volumes| != 1 ==> findings == [UnsupportedVolumeTopology(|volumes|)]
    ensures |volumes| == 1 && volumes[0].altitudeRef != MSL ==> findings == [UnsupportedAltitudeReference]
    ensures |volumes| == 1 && volumes[0].altitudeRef == MSL && !VolumeUsable(volumes, plannedStartAt, plannedEndAt) ==>
      findings == [AmbiguousVolumeTime]
    ensures VolumeUsable(volumes, plannedStartAt, plannedEndAt) ==>
      findings == if Decodes(volumes[0].geometry) then RouteFindings(volumes[0], items) else [GeometryNotEvaluable]
  {
    if |volumes| != 1 {
      return [UnsupportedVolumeTopology(|volumes|)];
    }
    var volume := volumes[0];
    if volume.altitudeRef != MSL {
      return [UnsupportedAltitudeReference];
    }
    if plannedStartAt < volume.startsAt || volume.endsAt < plannedEndAt {
      return [AmbiguousVolumeTime];
    }
    findings := [];
    var index := 0;
    while index < |items|
      invariant 0 <= index <= |items|
      invariant findings == AltitudeFindings(volume, items, index)
    {
      if items[index].altitudeM < volume.minAltitudeM || volume.maxAltitudeM < items[index].altitudeM {
        findings := findings + [AltitudeOutside(items[index].sequence)];
      }
      index := index + 1;
    }
    var coverage := CheckMissionCoverage(volume.geometry, items);
    if coverage.InvalidGeometry? {
      return [GeometryNotEvaluable];
    }
    findings := findings + AsItemFindings(coverage.uncoveredItems) + AsSegmentFindings(coverage.uncoveredSegments);
    NoFindingsMeansInside(volume, items);
  }

  lemma NoFindingsMeansInside(volume: Volume, items: seq<MissionItem>)
    requires Decodes(volume.geometry)
    ensures RouteFindings(volume, items) == [] <==> RouteInVolume(volume, items)
  {
    NoItemFindings(volume, items, |items|);
    NoSegmentFindings(volume.geometry.rings, items, Legs(items));
    if RouteFindings(volume, items) == [] {
      forall i | 0 <= i < Legs(items)
        ensures LegInVolume(volume, items[i], items[i + 1])
      {
        LegByEnds(volume, items[i], items[i + 1]);
      }
    }
    if RouteInVolume(volume, items) {
      forall i | 0 <= i < Legs(items)
        ensures CoversLeg(volume.geometry.rings, Position(items[i]), Position(items[i + 1]))
      {
        assert LegInVolume(volume, items[i], items[i + 1]);
      }
    }
  }

  lemma {:induction false} NoItemFindings(volume: Volume, items: seq<MissionItem>, n: nat)
    requires n <= |items| && Decodes(volume.geometry)
    ensures AltitudeFindings(volume, items, n) == [] && UncoveredItems(volume.geometry.rings, items, n) == [] <==>
      forall i :: 0 <= i < n ==> InVolume(volume, Position(items[i]), items[i].altitudeM)
  {
    if n > 0 {
      NoItemFindings(volume, items, n - 1);
    }
  }

  lemma {:induction false} NoSegmentFindings(polygon: Polygon, items: seq<MissionItem>, n: nat)
    requires n == 0 || n < |items|
    ensures UncoveredSegments(polygon, items, n) == [] <==>
      forall i :: 0 <= i < n ==> CoversLeg(polygon, Position(items[i]), Position(items[i + 1]))
  {
    if n > 0 {
      NoSegmentFindings(polygon, items, n - 1);
    }
  }

  /** The footprint by coverage, the altitude by convexity. */
  lemma LegByEnds(volume: Volume, a: MissionItem, b: MissionItem)
    requires Decodes(volume.geometry) && CoversLeg(volume.geometry.rings, Position(a), Position(b))
    requires volume.minAltitudeM <= a.altitudeM <= volume.maxAltitudeM
    requires volume.minAltitudeM <= b.altitudeM <= volume.maxAltitudeM
    ensures LegInVolume(volume, a, b)
  {
    forall t | 0.0 <= t <= 1.0
      ensures InVolume(volume, Along(Position(a), Position(b), t), Blend(a.altitudeM, b.altitudeM, t))
    {
      BlendBounds(a.altitudeM, b.altitudeM, t, Blend(a.altitudeM, b.altitudeM, t));
    }
  }

  /** pointInGeoJSONPolygon on decoded rings: boundaries are whatever the ray test says. */
  predicate MonitorInside(geometry: Geometry, p: Point) {
    && geometry.Rings? && |geometry.rings| > 0
    && MonitorInRing(geometry.rings[0], p)
    && forall k :: 1 <= k < |geometry.rings| ==> !MonitorInRing(geometry.rings[k], p)
  }

  predicate MonitorInRing(ring: Ring, p: Point) {
    |ring| >= 3 && StrictlyInside(ring, p)
  }

  predicate SampleInsideVolume(sample: Sample, volume: Volume) {
    && volume.startsAt <= sample.recordedAt <= volume.endsAt
    && volume.minAltitudeM <= sample.altitudeM <= volume.maxAltitudeM
    && MonitorInside(volume.geometry, Point(sample.longitude, sample.latitude))
  }

  ghost predicate OffRings(polygon: Polygon, p: Point) {
    forall k :: 0 <= k < |polygon| ==> !OnRing(polygon[k], p)
  }

  /** What the monitor accepts is covered; what is covered the monitor accepts unless it lies on a ring. */
  lemma MonitorAgreesOffRings(geometry: Geometry, p: Point)
    requires Decodes(geometry)
    ensures MonitorInside(geometry, p) ==> Covers(geometry.rings, p)
    ensures OffRings(geometry.rings, p) ==> (MonitorInside(geometry, p) <==> Covers(geometry.rings, p))
  {
    var polygon := geometry.rings;
    forall k | 1 <= k < |polygon|
      ensures !MonitorInRing(polygon[k], p) ==> Admits(polygon, k, p)
      ensures OffRings(polygon, p) && Admits(polygon, k, p) ==> !MonitorInRing(polygon[k], p)
    {
      assert Closed(polygon[k]);
    }
    assert Closed(polygon[0]);
  }

  /** A hole that the monitor counts as containing the point, while its own or an earlier hole's boundary admits it. */
  ghost predicate AdmittedInsideHole(polygon: Polygon, k: nat, p: Point)
    requires 1 <= k < |polygon|
  {
    StrictlyInside(polygon[k], p) && (OnRing(polygon[k], p) || exists j :: 1 <= j < k && OnRing(polygon[j], p))
  }

  /** The covered points the monitor rejects are exactly those on the exterior ring with even parity, and those of odd
      parity in a hole whose own or an earlier hole's boundary admits them. */
  lemma RejectedCoveredPoints(geometry: Geometry, p: Point)
    requires Decodes(geometry) && Covers(geometry.rings, p)
    ensures var polygon := geometry.rings;
      !MonitorInside(geometry, p) <==>
        || (OnRing(polygon[0], p) && !StrictlyInside(polygon[0], p))
        || exists k :: 1 <= k < |polygon| && AdmittedInsideHole(polygon, k, p)
  {
    var polygon := geometry.rings;
    assert Closed(polygon[0]);
    forall k | 1 <= k < |polygon| ensures MonitorInRing(polygon[k], p) <==> AdmittedInsideHole(polygon, k, p) {
      assert Closed(polygon[k]) && Admits(polygon, k, p);
    }
    hide AdmittedInsideHole, StrictlyInside, OnRing, Admits;
  }

  /** Flying an authorized route inside the window, off the rings, never raises an exit event. */
  lemma AuthorizedRouteConforms(volume: Volume, items: seq<MissionItem>, i: nat, t: real, recordedAt: int)
    requires RouteInVolume(volume, items) && i < Legs(items) && 0.0 <= t <= 1.0
    requires volume.startsAt <= recordedAt <= volume.endsAt
    requires OffRings(volume.geometry.rings, Along(Position(items[i]), Position(items[i + 1]), t))
    ensures var p := Along(Position(items[i]), Position(items[i + 1]), t);
      SampleInsideVolume(Sample(p.x, p.y, Blend(items[i].altitudeM, items[i + 1].altitudeM, t), recordedAt), volume)
  {
    assert LegInVolume(volume, items[i], items[i + 1]);
    MonitorAgreesOffRings(volume.geometry, Along(Position(items[i]), Position(items[i + 1]), t));
  }

  ghost predicate OffBoundaries(polygon: Polygon, p: Point) {
    forall k :: 0 <= k < |polygon| ==> !OnBoundary(polygon[k], p)
  }

  ghost predicate NoRepeats(polygon: Polygon) {
    forall k :: 0 <= k < |polygon| ==> !RepeatsVertex(polygon[k])
  }

  /** With no repeated vertices "off the rings" is meant literally. */
  lemma RouteConformsOffBoundaries(volume: Volume, items: seq<MissionItem>, i: nat, t: real, recordedAt: int)
    requires RouteInVolume(volume, items) && NoRepeats(volume.geometry.rings) && i < Legs(items) && 0.0 <= t <= 1.0
    requires volume.startsAt <= recordedAt <= volume.endsAt
    requires OffBoundaries(volume.geometry.rings, Along(Position(items[i]), Position(items[i + 1]), t))
    ensures var p := Along(Position(items[i]), Position(items[i + 1]), t);
      SampleInsideVolume(Sample(p.x, p.y, Blend(items[i].altitudeM, items[i + 1].altitudeM, t), recordedAt), volume)
  {
    var polygon, p := volume.geometry.rings, Along(Position(items[i]), Position(items[i + 1]), t);
    forall k | 0 <= k < |polygon| ensures !OnRing(polygon[k], p) {
      assert !RepeatsVertex(polygon[k]) && !OnBoundary(polygon[k], p);
      BoundaryTestExact(polygon[k]);
    }
    AuthorizedRouteConforms(volume, items, i, t, recordedAt);
  }

  /** An exterior ring that repeats a vertex authorizes every route within the altitude band and window. */
  lemma RepeatedVertexCoversEverything(ring: Ring, p: Point)
    requires RepeatsVertex(ring)
    ensures Covers([ring], p)
  {
    BoundaryTestExact(ring);
  }

  const SQUARE: Ring := [Point(0.0, 0.0), Point(2.0, 0.0), Point(2.0, 2.0), Point(0.0, 2.0), Point(0.0, 0.0)]
  const RIGHT_EDGE := Point(2.0, 1.0)

  /** On a ring the two disagree: the right edge of a square may be flown, and the monitor reports it as an exit. */
  lemma BoundaryDisagreement()
    ensures Decodes(Rings([SQUARE])) && Covers([SQUARE], RIGHT_EDGE) && !MonitorInside(Rings([SQUARE]), RIGHT_EDGE)
  {
    hide ParityUpTo, PointOnSegment;
    RightEdgeOn();
    RightEdgeParity(|SQUARE|);
    assert Closed(SQUARE);
  }

  lemma RightEdgeOn()
    ensures OnRing(SQUARE, RIGHT_EDGE)
  {
    hide PointOnSegment;
    var a, b := Point(2.0, 0.0), Point(2.0, 2.0);
    assert RIGHT_EDGE == Along(a, b, 0.5);
    AlongIsOnSegment(a, b, 0.5);
    assert OnEdge(SQUARE, 2, RIGHT_EDGE);
  }

  lemma {:induction false} RightEdgeParity(n: nat)
    requires n <= 5
    ensures !ParityUpTo(SQUARE, RIGHT_EDGE, n)
  {
    if n > 0 {
      RightEdgeParity(n - 1);
      var a, b := SQUARE[n - 1], Before(SQUARE, n - 1);
      if a.y != b.y {
        assert a.x == b.x;
        assert LineX(a, b, 1.0) <= 2.0;
      }
    }
  }
}
