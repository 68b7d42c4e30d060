/** Deconfliction of one intent's volumes against the operational intents that the airspace providers report, and
    the posture drawn from the findings. */
module ConflictEvaluation {
  import opened Plane
  import opened Domain
  import opened RouteCoverage
  import opened VolumeBounds

  datatype FindingStatus = FoundClear | FoundPotential | FoundIndeterminate | FoundConflict

  datatype Problem =
    | NoProblem | InvalidWindow | MissingBand | InvalidBand | MissingReference | UnresolvedGeometry | NoInlineGeometry
    | UnusableGeometry | ReferencesDiffer | BoxesOverlap | NoVolumes | ProviderFailed

  datatype Overlap = Overlap(start: int, end: int, minAltitudeM: real, maxAltitudeM: real, own: Bounds, peer: Bounds)

  datatype Finding = Finding(
    status: FindingStatus, problem: Problem, source: Option<Source>, own: Id, peerIntent: Id, peerVersion: int,
    peerVolume: Id, overlap: Option<Overlap>)

  datatype Source = Source(provider: Id, reference: Id, version: int)

  /** One operational intent as a provider reports it. */
  datatype PeerRecord = PeerRecord(source: Source, intent: Id, version: int, nominal: seq<Volume>,
                                   offNominal: seq<Volume>)

  /** One volume of a peer record. */
  datatype Peer = Peer(source: Source, intent: Id, version: int, volume: Volume)

  datatype Evaluated = Evaluated(status: FindingStatus, bounds: Bounds, problem: Problem)

  const NO_BOUNDS := Bounds(0.0, 0.0, 0.0, 0.0)

  function VolumeDimensionError(v: Volume): Problem {
    if v.startsAt == ZERO_TIME || v.endsAt == ZERO_TIME || v.startsAt >= v.endsAt then InvalidWindow
    else if v.minAltitudeM < 0.0 || v.maxAltitudeM <= 0.0 then MissingBand
    else if v.minAltitudeM > v.maxAltitudeM then InvalidBand
    else if v.altitudeRef.NoReference? then MissingReference
    else NoProblem
  }

  function EvaluateVolume(v: Volume): Evaluated {
    if !VolumeDimensionError(v).NoProblem? then Evaluated(FoundIndeterminate, NO_BOUNDS, VolumeDimensionError(v))
    else if v.geometry.ExternalGeometry? then Evaluated(FoundPotential, NO_BOUNDS, UnresolvedGeometry)
    else if v.geometry.NoGeometry? then Evaluated(FoundIndeterminate, NO_BOUNDS, NoInlineGeometry)
    else
      var box := GeometryBounds(v.geometry);
      if box.None? || Expanded(box.value, v.margin).None?
        then Evaluated(FoundIndeterminate, NO_BOUNDS, UnusableGeometry)
      else Evaluated(FoundClear, Expanded(box.value, v.margin).value, NoProblem)
  }

  predicate Evaluable(v: Volume) { EvaluateVolume(v).status.FoundClear? }

  predicate WindowsOverlap(a: Volume, b: Volume) { a.startsAt < b.endsAt && b.startsAt < a.endsAt }

  predicate BandsOverlap(a: Volume, b: Volume) { a.minAltitudeM <= b.maxAltitudeM && b.minAltitudeM <= a.maxAltitudeM }

  function PeerFinding(status: FindingStatus, problem: Problem, own: Volume, peer: Peer,
                       overlap: Option<Overlap>): Finding {
    Finding(status, problem, Some(peer.source), own.id, peer.intent, peer.version, peer.volume.id, overlap)
  }

  function OverlapOf(own: Volume, peer: Volume, ownBounds: Bounds, peerBounds: Bounds): Overlap {
    Overlap(
      if peer.startsAt > own.startsAt then peer.startsAt else own.startsAt, if peer.endsAt < own.endsAt then peer.endsAt
        else own.endsAt,
      Upper(own.minAltitudeM, peer.minAltitudeM), Lower(own.maxAltitudeM, peer.maxAltitudeM), ownBounds, peerBounds)
  }

  /** The inner loop body of evaluateConflicts for an evaluable own volume. */
  function ComparePeer(own: Volume, ownBounds: Bounds, peer: Peer): Option<Finding> {
    var v, e := peer.volume, EvaluateVolume(peer.volume);
    if !e.status.FoundClear? then
      if e.status.FoundIndeterminate? && !VolumeDimensionError(v).NoProblem?
        then Some(PeerFinding(e.status, e.problem, own, peer, None))
      else if !WindowsOverlap(own, v) then None
      else if own.altitudeRef != v.altitudeRef
        then Some(PeerFinding(FoundIndeterminate, ReferencesDiffer, own, peer, None))
      else if BandsOverlap(own, v) then Some(PeerFinding(e.status, e.problem, own, peer, None))
      else None
    else if !WindowsOverlap(own, v) || !Overlaps(ownBounds, e.bounds) then None
    else if own.altitudeRef != v.altitudeRef
      then Some(PeerFinding(FoundIndeterminate, ReferencesDiffer, own, peer, None))
    else if !BandsOverlap(own, v) then None
    else Some(PeerFinding(FoundPotential, BoxesOverlap, own, peer, Some(OverlapOf(own, v, ownBounds, e.bounds))))
  }

  function Listed(f: Option<Finding>): seq<Finding> { if f.Some? then [f.value] else [] }

  /** Findings of one own volume against the peers, in order. */
  function AgainstPeers(own: Volume, ownBounds: Bounds, peers: seq<Peer>): seq<Finding> {
    if peers == [] then []
    else AgainstPeers(own, ownBounds, peers[..|peers| - 1]) + Listed(ComparePeer(own, ownBounds, peers[|peers| - 1]))
  }

  function OwnProblem(own: Volume): Finding {
    Finding(EvaluateVolume(own).status, EvaluateVolume(own).problem, None, own.id, NO_ID, 0, NO_ID, None)
  }

  function VolumeFindings(own: Volume, peers: seq<Peer>): seq<Finding> {
    if Evaluable(own) then AgainstPeers(own, EvaluateVolume(own).bounds, peers) else [OwnProblem(own)]
  }

  /** What evaluateConflicts returns. */
  function Conflicts(volumes: seq<Volume>, peers: seq<Peer>): seq<Finding> {
    if volumes == [] then []
    else Conflicts(volumes[..|volumes| - 1], peers) + VolumeFindings(volumes[|volumes| - 1], peers)
  }

  function RecordPeers(r: PeerRecord): seq<Peer> {
    var volumes := r.nominal + r.offNominal;
    seq(|volumes|, k requires 0 <= k < |volumes| => Peer(r.source, r.intent, r.version, volumes[k]))
  }

  function PreparedPeers(records: seq<PeerRecord>): seq<Peer> {
    if records == [] then [] else PreparedPeers(records[..|records| - 1]) + RecordPeers(records[|records| - 1])
  }

  /** preparePeerVolumes. */
  method PreparePeerVolumes(records: seq<PeerRecord>) returns (peers: seq<Peer>)
    ensures peers == PreparedPeers(records)
  {
    peers := [];
    var i := 0;
    while i < |records|
      invariant 0 <= i <= |records| && peers == PreparedPeers(records[..i])
    {
      var r, start := records[i], peers;
      var k := 0;
      while k < |r.nominal|
        invariant 0 <= k <= |r.nominal| && peers == start + RecordPeers(r)[..k]
      {
        peers := peers + [Peer(r.source, r.intent, r.version, r.nominal[k])];
        k := k + 1;
      }
      k := 0;
      while k < |r.offNominal|
        invariant 0 <= k <= |r.offNominal| && peers == start + RecordPeers(r)[..|r.nominal| + k]
      {
        peers := peers + [Peer(r.source, r.intent, r.version, r.offNominal[k])];
        k := k + 1;
      }
      assert RecordPeers(r)[..|r.nominal| + k] == RecordPeers(r);
      assert records[..i + 1][..i] == records[..i];
      i := i + 1;
    }
    assert records[..i] == records;
  }

  method EvaluateConflicts(volumes: seq<Volume>, records: seq<PeerRecord>) returns (findings: seq<Finding>)
    ensures findings == Conflicts(volumes, PreparedPeers(records))
  {
    hide EvaluateVolume, AgainstPeers, OwnProblem;
    findings := [];
    var peers := PreparePeerVolumes(records);
    var i := 0;
    while i < |volumes|
      invariant 0 <= i <= |volumes| && findings == Conflicts(volumes[..i], peers)
    {
      var own := volumes[i];
      var evaluated := EvaluateVolume(own);
      if !evaluated.status.FoundClear? {
        findings := findings + [OwnProblem(own)];
      } else {
        var compared := ComparePeers(own, evaluated.bounds, peers);
        findings := findings + compared;
      }
      assert volumes[..i + 1][..i] == volumes[..i];
      i := i + 1;
    }
    assert volumes[..i] == volumes;
  }

  /** The inner loop of evaluateConflicts. */
  method ComparePeers(own: Volume, bounds: Bounds, peers: seq<Peer>) returns (findings: seq<Finding>)
    ensures findings == AgainstPeers(own, bounds, peers)
  {
    hide ComparePeer;
    findings := [];
    var k := 0;
    while k < |peers|
      invariant 0 <= k <= |peers| && findings == AgainstPeers(own, bounds, peers[..k])
    {
      var finding := ComparePeer(own, bounds, peers[k]);
      if finding.Some? {
        findings := findings + [finding.value];
      }
      assert peers[..k + 1][..k] == peers[..k];
      k := k + 1;
    }
    assert peers[..k] == peers;
  }

  /* ---- what the absence of a finding means ---- */

  /** The peer volume is known to be apart from the own one: in time, in altitude under the same reference, or, when
      its box is known, in the horizontal plane. */
  predicate Separated(own: Volume, peer: Volume) {
    && VolumeDimensionError(peer).NoProblem?
    && (|| !WindowsOverlap(own, peer)
        || (own.altitudeRef == peer.altitudeRef && !BandsOverlap(own, peer))
        || (Evaluable(peer) && !Overlaps(EvaluateVolume(own).bounds, EvaluateVolume(peer).bounds)))
  }

  lemma NoFindingMeansSeparated(own: Volume, peer: Peer)
    requires Evaluable(own)
    ensures ComparePeer(own, EvaluateVolume(own).bounds, peer).None? <==> Separated(own, peer.volume)
  {
  }

  predicate AllSeparated(own: Volume, peers: seq<Peer>) {
    forall k :: 0 <= k < |peers| ==> Separated(own, peers[k].volume)
  }

  lemma {:induction false} NoneAgainst(own: Volume, peers: seq<Peer>)
    requires Evaluable(own)
    ensures AgainstPeers(own, EvaluateVolume(own).bounds, peers) == [] <==> AllSeparated(own, peers)
  {
    if peers != [] {
      NoneAgainst(own, peers[..|peers| - 1]);
      NoFindingMeansSeparated(own, peers[|peers| - 1]);
      assert peers == peers[..|peers| - 1] + [peers[|peers| - 1]];
      hide Separated, Evaluable, ComparePeer;
    }
  }

  /** No finding at all exactly when every own volume is evaluable and apart from every peer volume. */
  lemma {:induction false} NoConflictsMeansApart(volumes: seq<Volume>, peers: seq<Peer>)
    ensures Conflicts(volumes, peers) == [] <==> forall i :: 0 <= i < |volumes| ==>
      Evaluable(volumes[i]) && AllSeparated(volumes[i], peers)
  {
    if volumes != [] {
      var last := volumes[|volumes| - 1];
      NoConflictsMeansApart(volumes[..|volumes| - 1], peers);
      if Evaluable(last) {
        NoneAgainst(last, peers);
      }
      assert volumes == volumes[..|volumes| - 1] + [last];
      hide AllSeparated, Evaluable, AgainstPeers;
    }
  }

  /** Every finding reports something that blocks. */
  lemma {:induction false} ConflictsNeverClear(volumes: seq<Volume>, peers: seq<Peer>)
    ensures forall f :: f in Conflicts(volumes, peers) ==> !f.status.FoundClear?
  {
    if volumes != [] {
      var last := volumes[|volumes| - 1];
      ConflictsNeverClear(volumes[..|volumes| - 1], peers);
      if Evaluable(last) {
        AgainstNeverClear(last, EvaluateVolume(last).bounds, peers);
      }
    }
  }

  lemma {:induction false} AgainstNeverClear(own: Volume, bounds: Bounds, peers: seq<Peer>)
    ensures forall f :: f in AgainstPeers(own, bounds, peers) ==> !f.status.FoundClear?
  {
    if peers != [] {
      AgainstNeverClear(own, bounds, peers[..|peers| - 1]);
    }
  }

  /** Between two evaluable volumes a potential conflict is mutual, and so is every other outcome. */
  lemma PotentialConflictMutual(a: Volume, b: Volume, sa: Source, sb: Source, ia: Id, ib: Id, va: int, vb: int)
    requires Evaluable(a) && Evaluable(b)
    ensures var ab := ComparePeer(a, EvaluateVolume(a).bounds, Peer(sb, ib, vb, b));
      var ba := ComparePeer(b, EvaluateVolume(b).bounds, Peer(sa, ia, va, a));
      && (ab.None? <==> ba.None?)
      && (ab.Some? ==> ab.value.status == ba.value.status && ab.value.problem == ba.value.problem)
      && (ab.Some? && ab.value.overlap.Some? ==> ba.value.overlap == Some(Mirrored(ab.value.overlap.value)))
  {
  }

  function Mirrored(o: Overlap): Overlap { o.(own := o.peer, peer := o.own) }

  predicate InWindow(v: Volume, instant: int) { v.startsAt <= instant < v.endsAt }

  predicate InBand(v: Volume, altitude: real) { v.minAltitudeM <= altitude <= v.maxAltitudeM }

  /** A potential conflict reports exactly the common window and the common altitude band, and neither is empty. */
  lemma OverlapIsIntersection(own: Volume, peer: Peer, instant: int, altitude: real)
    requires Evaluable(own)
    ensures var f := ComparePeer(own, EvaluateVolume(own).bounds, peer);
      f.Some? && f.value.overlap.Some? ==>
        var o := f.value.overlap.value;
        && (o.start <= instant < o.end <==> InWindow(own, instant) && InWindow(peer.volume, instant))
        && (o.minAltitudeM <= altitude <= o.maxAltitudeM <==> InBand(own, altitude) && InBand(peer.volume, altitude))
        && o.start < o.end && o.minAltitudeM <= o.maxAltitudeM
  {
  }

  /* ---- the volumes as regions of space and time ---- */

  /** The instant, altitude (in the volume's own reference) and position may lie in the volume; without a usable
      footprint every position may. */
  ghost predicate MayHold(v: Volume, p: Point, altitude: real, instant: int) {
    && InWindow(v, instant) && InBand(v, altitude)
    && (Evaluable(v) ==> InFootprint(v.geometry.rings, p))
  }

  /** Separated volumes share no position, altitude and instant; altitudes are compared only under one reference. */
  lemma SeparatedVolumesDisjoint(own: Volume, peer: Volume, p: Point, ownAltitude: real, peerAltitude: real,
                                 instant: int)
    requires Evaluable(own) && Separated(own, peer)
    requires own.altitudeRef == peer.altitudeRef ==> ownAltitude == peerAltitude
    ensures !(MayHold(own, p, ownAltitude, instant) && MayHold(peer, p, peerAltitude, instant))
  {
    if MayHold(own, p, ownAltitude, instant) && MayHold(peer, p, peerAltitude, instant) && Evaluable(peer) {
      ExpandedHolds(own, p);
      ExpandedHolds(peer, p);
      CommonPointOverlaps(EvaluateVolume(own).bounds, EvaluateVolume(peer).bounds, p);
    }
  }

  /* ---- discovery and posture ---- */

  datatype ProviderAnswer = ProviderAnswer(provider: Id, failed: bool, records: seq<PeerRecord>)

  function Stamped(r: PeerRecord, provider: Id): PeerRecord { r.(source := r.source.(provider := provider)) }

  predicate HasSource(records: seq<PeerRecord>, source: Source) {
    exists k :: 0 <= k < |records| && records[k].source == source
  }

  /** Each reported record has a kept one with its source, and kept records are reported ones, each source once. */
  ghost predicate Discovers(answers: seq<ProviderAnswer>, kept: seq<PeerRecord>) {
    && (forall i, k :: 0 <= i < |answers| && 0 <= k < |answers[i].records| ==>
          HasSource(kept, Stamped(answers[i].records[k], answers[i].provider).source))
    && (forall j :: 0 <= j < |kept| ==> Reported(answers, kept[j]))
    && (forall i, j :: 0 <= i < j < |kept| ==> kept[i].source != kept[j].source)
  }

  ghost predicate Reported(answers: seq<ProviderAnswer>, r: PeerRecord) {
    exists i, k ::
      0 <= i < |answers| && 0 <= k < |answers[i].records| && r == Stamped(answers[i].records[k], answers[i].provider)
  }

  predicate AnyFailed(answers: seq<ProviderAnswer>) { exists i :: 0 <= i < |answers| && answers[i].failed }

  function ProviderFailure(provider: Id): Finding {
    Finding(FoundIndeterminate, ProviderFailed, Some(Source(provider, NO_ID, 0)), NO_ID, NO_ID, 0, NO_ID, None)
  }

  /** discoverOperationalIntents. */
  method DiscoverOperationalIntents(answers: seq<ProviderAnswer>)
      returns (kept: seq<PeerRecord>, findings: seq<Finding>)
    ensures Discovers(answers, kept)
    ensures findings == [] <==> !AnyFailed(answers)
    ensures forall f :: f in findings ==> f.status.FoundIndeterminate?
  {
    kept, findings := [], [];
    var i := 0;
    while i < |answers|
      invariant 0 <= i <= |answers| && Discovers(answers[..i], kept)
      invariant findings == [] <==> !AnyFailed(answers[..i])
      invariant forall f :: f in findings ==> f.status.FoundIndeterminate?
    {
      if answers[i].failed {
        findings := findings + [ProviderFailure(answers[i].provider)];
      }
      assert answers[..i + 1] == answers[..i] + [answers[i]];
      ghost var before := kept;
      kept := KeepNew(answers[..i], kept, answers[i]);
      i := i + 1;
    }
    assert answers[..i] == answers;
  }

  method KeepNew(ghost earlier: seq<ProviderAnswer>, before: seq<PeerRecord>, answer: ProviderAnswer)
      returns (kept: seq<PeerRecord>)
    requires Discovers(earlier, before)
    ensures Discovers(earlier + [answer], kept)
  {
    kept := before;
    var k := 0;
    while k < |answer.records|
      invariant 0 <= k <= |answer.records| && before <= kept
      invariant forall j :: 0 <= j < k ==> HasSource(kept, Stamped(answer.records[j], answer.provider).source)
      invariant forall j :: |before| <= j < |kept| ==> FromAnswer(answer, kept[j])
      invariant forall a, b :: 0 <= a < b < |kept| ==> kept[a].source != kept[b].source
    {
      var record := Stamped(answer.records[k], answer.provider);
      if !HasSource(kept, record.source) {
        ghost var earlierKept := kept;
        kept := kept + [record];
        SourceKept(earlierKept, record);
      }
      k := k + 1;
    }
    StillDiscovers(earlier, before, answer, kept);
  }

  ghost predicate FromAnswer(answer: ProviderAnswer, r: PeerRecord) {
    exists n :: 0 <= n < |answer.records| && r == Stamped(answer.records[n], answer.provider)
  }

  lemma SourceKept(kept: seq<PeerRecord>, r: PeerRecord)
    ensures HasSource(kept + [r], r.source)
    ensures forall s :: HasSource(kept, s) ==> HasSource(kept + [r], s)
  {
    assert (kept + [r])[|kept|] == r;
    forall s | HasSource(kept, s) ensures HasSource(kept + [r], s) {
      var k :| 0 <= k < |kept| && kept[k].source == s;
      assert (kept + [r])[k].source == s;
    }
  }

  lemma StillDiscovers(earlier: seq<ProviderAnswer>, before: seq<PeerRecord>, answer: ProviderAnswer,
                       kept: seq<PeerRecord>)
    requires Discovers(earlier, before) && before <= kept
    requires forall j :: 0 <= j < |answer.records| ==>
      HasSource(kept, Stamped(answer.records[j], answer.provider).source)
    requires forall j :: |before| <= j < |kept| ==> FromAnswer(answer, kept[j])
    requires forall a, b :: 0 <= a < b < |kept| ==> kept[a].source != kept[b].source
    ensures Discovers(earlier + [answer], kept)
  {
    var answers := earlier + [answer];
    forall i, k | 0 <= i < |answers| && 0 <= k < |answers[i].records|
      ensures HasSource(kept, Stamped(answers[i].records[k], answers[i].provider).source)
    {
      if i < |earlier| {
        var source := Stamped(earlier[i].records[k], earlier[i].provider).source;
        assert HasSource(before, source);
        var j :| 0 <= j < |before| && before[j].source == source;
        assert kept[j].source == source;
      }
    }
    forall j | 0 <= j < |kept| ensures Reported(answers, kept[j]) {
      if j < |before| {
        assert Reported(earlier, before[j]);
        var i, k :| 0 <= i < |earlier| && 0 <= k < |earlier[i].records| &&
            before[j] == Stamped(earlier[i].records[k], earlier[i].provider);
        assert answers[i].records[k] == earlier[i].records[k];
      } else {
        assert FromAnswer(answer, kept[j]);
        var n :| 0 <= n < |answer.records| && kept[j] == Stamped(answer.records[n], answer.provider);
        assert answers[|earlier|].records[n] == answer.records[n];
      }
    }
  }

  datatype Posture = PostureClear | PosturePotential | PostureIndeterminate | PostureConflict

  function PostureOf(status: FindingStatus): Posture {
    match status
    case FoundConflict => PostureConflict
    case FoundPotential => PosturePotential
    case FoundIndeterminate => PostureIndeterminate
    case FoundClear => PostureClear
  }

  function Rank(posture: Posture): int {
    match posture
    case PostureConflict => 4
    case PostureIndeterminate => 3
    case PosturePotential => 2
    case PostureClear => 1
  }

  function MaxPosture(current: Posture, status: FindingStatus): Posture {
    if Rank(PostureOf(status)) > Rank(current) then PostureOf(status) else current
  }

  /** The posture is the highest-ranked one any finding calls for. */
  ghost predicate IsHighest(findings: seq<Finding>, posture: Posture) {
    && (forall f :: f in findings ==> Rank(PostureOf(f.status)) <= Rank(posture))
    && (posture.PostureClear? || exists f :: f in findings && PostureOf(f.status) == posture)
  }

  const NO_CONFLICT := Finding(FoundClear, NoProblem, None, NO_ID, NO_ID, 0, NO_ID, None)
  const NOTHING_TO_CHECK := Finding(FoundIndeterminate, NoVolumes, None, NO_ID, NO_ID, 0, NO_ID, None)

  /** finalize, without the durable replacement of the findings. */
  method FinalizeFindings(found: seq<Finding>) returns (findings: seq<Finding>, posture: Posture)
    ensures findings == if found == [] then [NO_CONFLICT] else found
    ensures IsHighest(findings, posture)
  {
    findings := found;
    if |findings| == 0 {
      findings := findings + [NO_CONFLICT];
    }
    posture := PostureClear;
    var index := 0;
    while index < |findings|
      invariant 0 <= index <= |findings| && IsHighest(findings[..index], posture)
    {
      assert findings[..index + 1] == findings[..index] + [findings[index]];
      posture := MaxPosture(posture, findings[index].status);
      index := index + 1;
    }
    assert findings[..index] == findings;
  }

  ghost predicate NothingInTheWay(volumes: seq<Volume>, answers: seq<ProviderAnswer>, peers: seq<Peer>) {
    && volumes != [] && !AnyFailed(answers)
    && forall i :: 0 <= i < |volumes| ==> Evaluable(volumes[i]) && AllSeparated(volumes[i], peers)
  }

  /** check: Clear exactly when there is an own volume, every provider answered, every own volume is evaluable, and
      every peer volume kept from the answers is apart from each of them. */
  method Check(volumes: seq<Volume>, answers: seq<ProviderAnswer>)
      returns (posture: Posture, findings: seq<Finding>, kept: seq<PeerRecord>)
    ensures volumes != [] ==> Discovers(answers, kept)
    ensures IsHighest(findings, posture)
    ensures posture.PostureClear? <==> NothingInTheWay(volumes, answers, PreparedPeers(kept))
  {
    hide Discovers, Conflicts, PreparedPeers, AnyFailed, AllSeparated, Evaluable;
    if |volumes| == 0 {
      findings, posture := FinalizeFindings([NOTHING_TO_CHECK]);
      kept := [];
      assert findings[0].status == FoundIndeterminate;
      return;
    }
    var failures, conflicts;
    kept, failures := DiscoverOperationalIntents(answers);
    conflicts := EvaluateConflicts(volumes, kept);
    findings, posture := FinalizeFindings(failures + conflicts);
    CheckMeaning(volumes, answers, PreparedPeers(kept), failures, posture);
  }

  lemma CheckMeaning(volumes: seq<Volume>, answers: seq<ProviderAnswer>, peers: seq<Peer>, failures: seq<Finding>,
                     posture: Posture)
    requires volumes != [] && (failures == [] <==> !AnyFailed(answers)) && forall f :: f in failures ==>
      f.status.FoundIndeterminate?
    requires var found := failures + Conflicts(volumes, peers);
      IsHighest(if found == [] then [NO_CONFLICT] else found, posture)
    ensures posture.PostureClear? <==> NothingInTheWay(volumes, answers, peers)
  {
    NoConflictsMeansApart(volumes, peers);
    ConflictsNeverClear(volumes, peers);
    hide Conflicts, AnyFailed, AllSeparated, Evaluable;
    var found := failures + Conflicts(volumes, peers);
    if found != [] {
      assert found[0] in found && !found[0].status.FoundClear?;
    }
  }

  /** A clear check keeps the intent out of every kept peer volume: no own volume shares a position, altitude and
      instant with one. */
  lemma ClearMeansDisjoint(volumes: seq<Volume>, answers: seq<ProviderAnswer>, peers: seq<Peer>, i: nat, k: nat,
                           p: Point, altitude: real, instant: int)
    requires NothingInTheWay(volumes, answers, peers) && i < |volumes| && k < |peers|
    requires volumes[i].altitudeRef == peers[k].volume.altitudeRef
    ensures !(MayHold(volumes[i], p, altitude, instant) && MayHold(peers[k].volume, p, altitude, instant))
  {
    assert Evaluable(volumes[i]) && AllSeparated(volumes[i], peers);
    assert Separated(volumes[i], peers[k].volume);
    hide Evaluable, AllSeparated, Separated, MayHold;
    SeparatedVolumesDisjoint(volumes[i], peers[k].volume, p, altitude, altitude, instant);
  }

  /** The route check accepts the position for the volume, at an altitude and instant of its band and window. */
  ghost predicate Authorizes(v: Volume, p: Point, altitude: real, instant: int) {
    InWindow(v, instant) && InBand(v, altitude) && v.geometry.Rings? && Covers(v.geometry.rings, p)
  }

  predicate ExteriorRepeats(v: Volume) {
    v.geometry.Rings? && |v.geometry.rings| > 0 && RepeatsVertex(v.geometry.rings[0])
  }

  lemma AuthorizedMayHold(v: Volume, p: Point, altitude: real, instant: int)
    requires Authorizes(v, p, altitude, instant) && !ExteriorRepeats(v)
    ensures MayHold(v, p, altitude, instant)
  {
    CoveredIsInFootprint(v.geometry.rings, p);
    hide Evaluable, InFootprint, Covers;
  }

  /** Deconfliction and mission authorization fit together: after a clear check no point of space and time is authorized
      for a route of the intent and for a route of a kept peer, unless an exterior ring repeats a vertex. */
  lemma ClearKeepsRoutesApart(volumes: seq<Volume>, answers: seq<ProviderAnswer>, peers: seq<Peer>, i: nat, k: nat,
                              p: Point, altitude: real, instant: int)
    requires NothingInTheWay(volumes, answers, peers) && i < |volumes| && k < |peers|
    requires volumes[i].altitudeRef == peers[k].volume.altitudeRef
    ensures Authorizes(volumes[i], p, altitude, instant) && Authorizes(peers[k].volume, p, altitude, instant) ==>
              ExteriorRepeats(volumes[i]) || ExteriorRepeats(peers[k].volume)
  {
    hide *;
    ClearMeansDisjoint(volumes, answers, peers, i, k, p, altitude, instant);
    if Authorizes(volumes[i], p, altitude, instant) && !ExteriorRepeats(volumes[i]) {
      AuthorizedMayHold(volumes[i], p, altitude, instant);
    }
    if Authorizes(peers[k].volume, p, altitude, instant) && !ExteriorRepeats(peers[k].volume) {
      AuthorizedMayHold(peers[k].volume, p, altitude, instant);
    }
  }
}
