/** The spatial pre-filter of the store and the local airspace provider on top of it: they leave out only intents
    that could not have produced a finding. */
module ConflictIndex {
  import opened Domain
  import opened StoreState
  import opened VolumeBounds
  import opened ConflictEvaluation
  import L = IntentLifecycle
  import FleetFences
  import Operations

  /** dimensionsUsable of spatial.go. */
  predicate DimensionsUsable(v: Volume) {
    && v.startsAt != ZERO_TIME && v.endsAt != ZERO_TIME && v.startsAt < v.endsAt
    && v.minAltitudeM >= 0.0 && v.maxAltitudeM > 0.0 && v.minAltitudeM <= v.maxAltitudeM
    && !v.altitudeRef.NoReference?
  }

  predicate Meets(target: Volume, candidate: Volume) {
    && target.startsAt < candidate.endsAt && candidate.startsAt < target.endsAt
    && (|| target.altitudeRef != candidate.altitudeRef
        || (target.minAltitudeM <= candidate.maxAltitudeM && candidate.minAltitudeM <= target.maxAltitudeM))
  }

  predicate CouldOverlap(targets: seq<Volume>, candidate: Volume) {
    || |targets| == 0 || !DimensionsUsable(candidate)
    || exists k :: 0 <= k < |targets| && (!DimensionsUsable(targets[k]) || Meets(targets[k], candidate))
  }

  /** couldOverlap as the loop it is. */
  method CouldOverlapLoop(targets: seq<Volume>, candidate: Volume) returns (could: bool)
    ensures could == CouldOverlap(targets, candidate)
  {
    if |targets| == 0 || !DimensionsUsable(candidate) {
      return true;
    }
    var k := 0;
    while k < |targets|
      invariant 0 <= k <= |targets|
      invariant forall j :: 0 <= j < k ==> DimensionsUsable(targets[j]) && !Meets(targets[j], candidate)
    {
      if !DimensionsUsable(targets[k]) || Meets(targets[k], candidate) {
        return true;
      }
      k := k + 1;
    }
    return false;
  }

  /** The two packages' checks of a volume's dimensions agree. */
  lemma DimensionChecksAgree(v: Volume)
    ensures DimensionsUsable(v) <==> VolumeDimensionError(v).NoProblem?
  {
  }

  predicate KeyBefore(a: IntentKey, b: IntentKey) { a.0 < b.0 || (a.0 == b.0 && a.1 < b.1) }

  ghost predicate Ascending(keys: seq<IntentKey>) {
    forall i, j :: 0 <= i < j < |keys| ==> KeyBefore(keys[i], keys[j])
  }

  /** The intent versions that own a volume which could overlap. */
  ghost function CandidateKeys(volumes: map<VolumeKey, Volume>, exclude: Id, targets: seq<Volume>): set<IntentKey> {
    set k | k in volumes && volumes[k].intent != exclude && CouldOverlap(targets, volumes[k]) ::
      (volumes[k].intent, volumes[k].intentVersion)
  }

  /** FindCandidates: each candidate once, in order. */
  method FindCandidates(volumes: map<VolumeKey, Volume>, exclude: Id, targets: seq<Volume>)
      returns (candidates: seq<IntentKey>)
    ensures Ascending(candidates)
    ensures forall key :: key in candidates <==> key in CandidateKeys(volumes, exclude, targets)
  {
    hide CouldOverlap;
    var unique: set<IntentKey> := {};
    var remaining := volumes.Keys;
    while remaining != {}
      invariant remaining <= volumes.Keys
      invariant unique <= CandidateKeys(volumes, exclude, targets)
      invariant forall k ::
        k in volumes && k !in remaining && volumes[k].intent != exclude && CouldOverlap(targets, volumes[k]) ==>
                  (volumes[k].intent, volumes[k].intentVersion) in unique
    {
      var k :| k in remaining;
      remaining := remaining - {k};
      var v := volumes[k];
      var could := CouldOverlapLoop(targets, v);
      if v.intent != exclude && could {
        unique := unique + {(v.intent, v.intentVersion)};
      }
    }
    candidates := SortKeys(unique);
  }

  method SortKeys(keys: set<IntentKey>) returns (sorted: seq<IntentKey>)
    ensures Ascending(sorted) && forall key :: key in sorted <==> key in keys
  {
    sorted := [];
    var remaining := keys;
    while remaining != {}
      invariant remaining <= keys && Ascending(sorted)
      invariant forall key :: key in keys <==> key in sorted || key in remaining
      invariant forall i, key :: 0 <= i < |sorted| && key in remaining ==> KeyBefore(sorted[i], key)
    {
      var first := FirstKey(remaining);
      remaining := remaining - {first};
      sorted := sorted + [first];
    }
  }

  method FirstKey(keys: set<IntentKey>) returns (first: IntentKey)
    requires keys != {}
    ensures first in keys && forall key :: key in keys && key != first ==> KeyBefore(first, key)
  {
    first :| first in keys;
    var remaining := keys - {first};
    while remaining != {}
      invariant remaining <= keys && first in keys
      invariant forall key :: key in keys && key !in remaining && key != first ==> KeyBefore(first, key)
    {
      var key :| key in remaining;
      remaining := remaining - {key};
      if KeyBefore(key, first) {
        first := key;
      }
    }
  }

  /* ---- the local provider ---- */

  ghost predicate EligibleVersion(d: Data, key: IntentKey) { key in d.intents && L.Effective(d.intents[key].status) }

  /** For every intent with an eligible candidate version, its highest one. */
  ghost predicate Selects(d: Data, candidates: set<IntentKey>, selected: map<Id, Intent>) {
    && (forall key :: key in candidates && EligibleVersion(d, key) ==>
       key.0 in selected && key.1 <= selected[key.0].version)
    && (forall id :: id in selected ==>
          var key := (id, selected[id].version);
          key in candidates && EligibleVersion(d, key) && d.intents[key] == selected[id])
  }

  function OfVersion(volumes: seq<Volume>, version: int): seq<Volume> {
    if volumes == [] then []
    else OfVersion(volumes[..|volumes| - 1], version) +
         if volumes[|volumes| - 1].intentVersion == version then [volumes[|volumes| - 1]] else []
  }

  function OfKind(volumes: seq<Volume>, offNominal: bool): seq<Volume> {
    if volumes == [] then []
    else
      var last := volumes[|volumes| - 1];
      OfKind(volumes[..|volumes| - 1], offNominal) + if (last.kind.Contingency? || last.kind.Emergency?) == offNominal
        then [last] else []
  }

  /** The record built for one selected version. */
  function RecordFor(listed: seq<Volume>, provider: Id, intent: Intent): PeerRecord {
    var volumes := OfVersion(listed, intent.version);
    PeerRecord(Source(provider, intent.id, intent.version), intent.id, intent.version, OfKind(volumes, false),
      OfKind(volumes, true))
  }

  predicate Empty(r: PeerRecord) { r.nominal == [] && r.offNominal == [] }

  function ListedFor(listed: map<Id, seq<Volume>>, id: Id): seq<Volume> { if id in listed then listed[id] else [] }

  /** `listed` is what ListOperationalVolumes returns for each intent, in whatever order. */
  ghost predicate Lists(d: Data, listed: map<Id, seq<Volume>>) {
    && (forall k :: k in d.volumes ==> d.volumes[k] in ListedFor(listed, d.volumes[k].intent))
    && (forall id, v :: v in ListedFor(listed, id) ==>
       v.intent == id && VolumeKeyOf(v) in d.volumes && d.volumes[VolumeKeyOf(v)] == v)
  }

  /** The selected intents that have volumes, as records in the order of their identities. */
  ghost predicate Hydrates(listed: map<Id, seq<Volume>>, provider: Id, selected: map<Id, Intent>,
                           records: seq<PeerRecord>) {
    && (forall i, j :: 0 <= i < j < |records| ==> records[i].intent < records[j].intent)
    && (forall i :: 0 <= i < |records| ==> IsRecord(listed, provider, selected, records[i]))
    && (forall id :: id in selected && !Empty(RecordFor(ListedFor(listed, id), provider, selected[id])) ==>
       HasRecord(records, id))
  }

  ghost predicate IsRecord(listed: map<Id, seq<Volume>>, provider: Id, selected: map<Id, Intent>, r: PeerRecord) {
    r.intent in selected && r == RecordFor(ListedFor(listed, r.intent), provider, selected[r.intent]) && !Empty(r)
  }

  ghost predicate HasRecord(records: seq<PeerRecord>, id: Id) {
    exists i :: 0 <= i < |records| && records[i].intent == id
  }

  /** The records of the highest eligible candidate versions. */
  ghost predicate LocalAnswer(d: Data, listed: map<Id, seq<Volume>>, provider: Id, own: Id, targets: seq<Volume>,
                              records: seq<PeerRecord>) {
    exists selected: map<Id, Intent> ::
      Selects(d, CandidateKeys(d.volumes, own, targets), selected) && Hydrates(listed, provider, selected, records)
  }

  /** FindOperationalIntents over one state of the store. */
  method FindOperationalIntents(d: Data, listed: map<Id, seq<Volume>>, provider: Id, own: Id, targets: seq<Volume>)
      returns (records: seq<PeerRecord>)
    requires KeyedIntents(d.intents)
    ensures LocalAnswer(d, listed, provider, own, targets, records)
  {
    hide CandidateKeys, RecordFor, Selects, Hydrates;
    SelectNothing(d);
    var candidates := FindCandidates(d.volumes, own, targets);
    var chosen: map<Id, Intent> := map[];
    var i := 0;
    assert Members(candidates[..0]) == {};
    while i < |candidates|
      invariant 0 <= i <= |candidates|
      invariant Selects(d, Members(candidates[..i]), chosen)
    {
      var key := candidates[i];
      SelectNext(d, Members(candidates[..i]), key, chosen);
      MembersGrow(candidates, i);
      if key in d.intents && (d.intents[key].status.Accepted? || d.intents[key].status.Active?) {
        if key.0 !in chosen || key.1 > chosen[key.0].version {
          chosen := chosen[key.0 := d.intents[key]];
        }
      }
      i := i + 1;
    }
    assert candidates[..i] == candidates;
    assert Members(candidates) == CandidateKeys(d.volumes, own, targets);
    SelectedIds(d, Members(candidates), chosen);
    records := HydrateRecords(listed, provider, chosen);
    assert Selects(d, CandidateKeys(d.volumes, own, targets), chosen) && Hydrates(listed, provider, chosen, records);
  }

  ghost function Members(keys: seq<IntentKey>): set<IntentKey> { set key | key in keys }

  lemma MembersGrow(keys: seq<IntentKey>, i: nat)
    requires i < |keys|
    ensures Members(keys[..i + 1]) == Members(keys[..i]) + {keys[i]}
  {
    assert keys[..i + 1] == keys[..i] + [keys[i]];
  }

  lemma SelectNothing(d: Data)
    ensures Selects(d, {}, map[])
  {
  }

  lemma SelectNext(d: Data, seen: set<IntentKey>, key: IntentKey, chosen: map<Id, Intent>)
    requires KeyedIntents(d.intents) && Selects(d, seen, chosen)
    ensures if EligibleVersion(d, key) && (key.0 !in chosen || key.1 > chosen[key.0].version)
            then Selects(d, seen + {key}, chosen[key.0 := d.intents[key]]) else Selects(d, seen + {key}, chosen)
  {
  }

  lemma SelectedIds(d: Data, seen: set<IntentKey>, chosen: map<Id, Intent>)
    requires KeyedIntents(d.intents) && Selects(d, seen, chosen)
    ensures forall id :: id in chosen ==> chosen[id].id == id
  {
  }

  method HydrateRecords(listed: map<Id, seq<Volume>>, provider: Id, selected: map<Id, Intent>)
      returns (records: seq<PeerRecord>)
    requires forall id :: id in selected ==> selected[id].id == id
    ensures Hydrates(listed, provider, selected, records)
  {
    records := [];
    var remaining := selected.Keys;
    assert HydratedSoFar(listed, provider, selected, remaining, records);
    while remaining != {}
      invariant remaining <= selected.Keys
      invariant HydratedSoFar(listed, provider, selected, remaining, records)
    {
      var id := SmallestId(remaining);
      var record := BuildRecord(ListedFor(listed, id), provider, selected[id]);
      HydrateNext(listed, provider, selected, remaining, records, id);
      hide HydratedSoFar, RecordFor;
      remaining := remaining - {id};
      if |record.nominal| + |record.offNominal| > 0 {
        records := records + [record];
      }
    }
  }

  /** The records built so far, in order, for every selected intent not in `remaining`. */
  ghost predicate HydratedSoFar(listed: map<Id, seq<Volume>>, provider: Id, selected: map<Id, Intent>,
                                remaining: set<Id>, records: seq<PeerRecord>) {
    && (forall a, b :: 0 <= a < b < |records| ==> records[a].intent < records[b].intent)
    && (forall a :: 0 <= a < |records| ==> IsRecord(listed, provider, selected, records[a]))
    && (forall a, id :: 0 <= a < |records| && id in remaining ==> records[a].intent < id)
    && (forall id ::
       id in selected && id !in remaining && !Empty(RecordFor(ListedFor(listed, id), provider, selected[id])) ==>
          HasRecord(records, id))
  }

  lemma HydrateNext(listed: map<Id, seq<Volume>>, provider: Id, selected: map<Id, Intent>, remaining: set<Id>,
                    records: seq<PeerRecord>, id: Id)
    requires HydratedSoFar(listed, provider, selected, remaining, records) && id in remaining && id in selected
    requires selected[id].id == id
    requires forall other :: other in remaining && other != id ==> id < other
    ensures var r := RecordFor(ListedFor(listed, id), provider, selected[id]);
      HydratedSoFar(listed, provider, selected, remaining - {id}, if Empty(r) then records else records + [r])
  {
    var r := RecordFor(ListedFor(listed, id), provider, selected[id]);
    assert r.intent == id;
    var after := if Empty(r) then records else records + [r];
    RecordsGrow(records, after, r);
    assert !Empty(r) ==> IsRecord(listed, provider, selected, r);
    hide RecordFor, HasRecord, IsRecord;
  }

  lemma RecordsGrow(earlier: seq<PeerRecord>, records: seq<PeerRecord>, r: PeerRecord)
    requires records == earlier || records == earlier + [r]
    ensures forall id :: HasRecord(earlier, id) ==> HasRecord(records, id)
    ensures records == earlier + [r] ==> HasRecord(records, r.intent)
  {
    forall id | HasRecord(earlier, id) ensures HasRecord(records, id) {
      var k :| 0 <= k < |earlier| && earlier[k].intent == id;
      assert records[k].intent == id;
    }
    if records == earlier + [r] {
      assert records[|earlier|].intent == r.intent;
    }
  }

  method SmallestId(ids: set<Id>) returns (least: Id)
    requires ids != {}
    ensures least in ids && forall id :: id in ids && id != least ==> least < id
  {
    least :| least in ids;
    var remaining := ids - {least};
    while remaining != {}
      invariant remaining <= ids && least in ids
      invariant forall id :: id in ids && id !in remaining && id != least ==> least < id
    {
      var id :| id in remaining;
      remaining := remaining - {id};
      if id < least {
        least := id;
      }
    }
  }

  /** The split of one version's volumes into nominal and off-nominal ones. */
  method BuildRecord(listed: seq<Volume>, provider: Id, intent: Intent) returns (record: PeerRecord)
    ensures record == RecordFor(listed, provider, intent)
  {
    record := PeerRecord(Source(provider, intent.id, intent.version), intent.id, intent.version, [], []);
    var k := 0;
    while k < |listed|
      invariant 0 <= k <= |listed| && record == RecordFor(listed[..k], provider, intent)
    {
      var v := listed[k];
      RecordGrows(listed[..k], v, provider, intent);
      assert listed[..k + 1] == listed[..k] + [v];
      if v.intentVersion == intent.version {
        if v.kind.Contingency? || v.kind.Emergency? {
          record := record.(offNominal := record.offNominal + [v]);
        } else {
          record := record.(nominal := record.nominal + [v]);
        }
      }
      k := k + 1;
    }
    assert listed[..k] == listed;
  }

  lemma RecordGrows(listed: seq<Volume>, v: Volume, provider: Id, intent: Intent)
    ensures var before, after := RecordFor(listed, provider, intent), RecordFor(listed + [v], provider, intent);
      if v.intentVersion != intent.version then after == before
      else if v.kind.Contingency? || v.kind.Emergency? then after == before.(offNominal := before.offNominal + [v])
      else after == before.(nominal := before.nominal + [v])
  {
    assert (listed + [v])[..|listed|] == listed;
    assert v.intentVersion != intent.version ==>
      OfVersion(listed + [v], intent.version) == OfVersion(listed, intent.version);
    SplitGrows(OfVersion(listed, intent.version), v);
  }

  lemma SplitGrows(volumes: seq<Volume>, v: Volume)
    ensures var off := v.kind.Contingency? || v.kind.Emergency?;
      OfKind(volumes + [v], off) == OfKind(volumes, off) + [v] && OfKind(volumes + [v], !off) == OfKind(volumes, !off)
  {
    assert (volumes + [v])[..|volumes|] == volumes;
  }

  /* ---- exactness ---- */

  /** Every other intent's eligible version, whether or not the index found it. */
  ghost function OtherKeys(d: Data, own: Id): set<IntentKey> { set key | key in d.intents && key.0 != own }

  /** No volume of the record can produce a finding for an evaluable target. */
  ghost predicate Silent(targets: seq<Volume>, r: PeerRecord) {
    forall t, v :: t in targets && v in r.nominal + r.offNominal && Evaluable(t) ==>
      forall s, i, n :: ComparePeer(t, EvaluateVolume(t).bounds, Peer(s, i, n, v)).None?
  }

  /** A volume the pre-filter leaves out produces no finding. */
  lemma LeftOutIsSilent(targets: seq<Volume>, candidate: Volume, t: Volume, s: Source, i: Id, n: int)
    requires !CouldOverlap(targets, candidate) && t in targets && Evaluable(t)
    ensures ComparePeer(t, EvaluateVolume(t).bounds, Peer(s, i, n, candidate)).None?
  {
    var k :| 0 <= k < |targets| && targets[k] == t;
    assert DimensionsUsable(targets[k]) && !Meets(targets[k], candidate);
    DimensionChecksAgree(candidate);
  }

  lemma {:induction false} OfVersionMembers(listed: seq<Volume>, version: int, v: Volume)
    requires v in OfVersion(listed, version)
    ensures v in listed && v.intentVersion == version
  {
    if listed != [] && v in OfVersion(listed[..|listed| - 1], version) {
      OfVersionMembers(listed[..|listed| - 1], version, v);
    }
  }

  lemma {:induction false} OfKindMembers(volumes: seq<Volume>, off: bool, v: Volume)
    requires v in OfKind(volumes, off)
    ensures v in volumes
  {
    if volumes != [] && v in OfKind(volumes[..|volumes| - 1], off) {
      OfKindMembers(volumes[..|volumes| - 1], off, v);
    }
  }

  lemma RecordMembers(listed: seq<Volume>, provider: Id, intent: Intent, v: Volume)
    requires var r := RecordFor(listed, provider, intent); v in r.nominal + r.offNominal
    ensures v in listed && v.intentVersion == intent.version
  {
    var volumes := OfVersion(listed, intent.version);
    if v in OfKind(volumes, false) { OfKindMembers(volumes, false, v); } else { OfKindMembers(volumes, true, v); }
    OfVersionMembers(listed, intent.version, v);
  }

  /** An intent whose eligible version the index missed has a silent record. */
  lemma MissedIsSilent(d: Data, listed: map<Id, seq<Volume>>, provider: Id, own: Id, targets: seq<Volume>,
                       intent: Intent)
    requires Lists(d, listed) && KeyedVolumes(d.volumes) && intent.id != own
    requires (intent.id, intent.version) !in CandidateKeys(d.volumes, own, targets)
    ensures Silent(targets, RecordFor(ListedFor(listed, intent.id), provider, intent))
  {
    var r := RecordFor(ListedFor(listed, intent.id), provider, intent);
    forall t, v | t in targets && v in r.nominal + r.offNominal && Evaluable(t)
      ensures forall s, i, n :: ComparePeer(t, EvaluateVolume(t).bounds, Peer(s, i, n, v)).None?
    {
      RecordMembers(ListedFor(listed, intent.id), provider, intent, v);
      assert VolumeKeyOf(v) in d.volumes && d.volumes[VolumeKeyOf(v)] == v;
      assert !CouldOverlap(targets, v) by { hide CouldOverlap; }
      forall s, i, n ensures ComparePeer(t, EvaluateVolume(t).bounds, Peer(s, i, n, v)).None? {
        LeftOutIsSilent(targets, v, t, s, i, n);
      }
    }
  }

  lemma {:induction false} AgainstAppends(own: Volume, bounds: Bounds, left: seq<Peer>, right: seq<Peer>)
    ensures AgainstPeers(own, bounds, left + right) ==
      AgainstPeers(own, bounds, left) + AgainstPeers(own, bounds, right)
  {
    if right == [] {
      assert left + right == left;
    } else {
      AgainstAppends(own, bounds, left, right[..|right| - 1]);
      assert (left + right)[..|left + right| - 1] == left + right[..|right| - 1];
    }
  }

  lemma {:induction false} SilentPeers(own: Volume, peers: seq<Peer>)
    requires forall k :: 0 <= k < |peers| ==> ComparePeer(own, EvaluateVolume(own).bounds, peers[k]).None?
    ensures AgainstPeers(own, EvaluateVolume(own).bounds, peers) == []
  {
    if peers != [] {
      SilentPeers(own, peers[..|peers| - 1]);
    }
  }

  lemma SilentRecord(targets: seq<Volume>, own: Volume, r: PeerRecord)
    requires Silent(targets, r) && own in targets && Evaluable(own)
    ensures AgainstPeers(own, EvaluateVolume(own).bounds, RecordPeers(r)) == []
  {
    var peers := RecordPeers(r);
    forall k | 0 <= k < |peers| ensures ComparePeer(own, EvaluateVolume(own).bounds, peers[k]).None? {
      assert peers[k].volume in r.nominal + r.offNominal;
      assert peers[k] == Peer(r.source, r.intent, r.version, peers[k].volume);
    }
    hide Silent, ComparePeer, Evaluable;
    SilentPeers(own, peers);
  }

  /** `found` is `all` without some records, every one of them silent. */
  ghost predicate SkipsSilent(targets: seq<Volume>, found: seq<PeerRecord>, all: seq<PeerRecord>) {
    && (forall i, j :: 0 <= i < j < |found| ==> found[i].intent < found[j].intent)
    && (forall i, j :: 0 <= i < j < |all| ==> all[i].intent < all[j].intent)
    && (forall i :: 0 <= i < |found| ==> found[i] in all)
    && (forall k :: 0 <= k < |all| ==> all[k] in found || Silent(targets, all[k]))
  }

  lemma SkipsSilentTail(targets: seq<Volume>, found: seq<PeerRecord>, all: seq<PeerRecord>)
    requires SkipsSilent(targets, found, all) && all != []
    ensures var last := all[|all| - 1];
      if found != [] && found[|found| - 1] == last then SkipsSilent(targets, found[..|found| - 1], all[..|all| - 1])
      else SkipsSilent(targets, found, all[..|all| - 1]) && Silent(targets, last)
  {
    hide Silent;
    var last, rest := all[|all| - 1], all[..|all| - 1];
    if found != [] && found[|found| - 1] == last {
      MembersBeforeLast(found[..|found| - 1], all);
      MembersBeforeLast(rest, found);
      forall k | 0 <= k < |rest| ensures rest[k] in found[..|found| - 1] || Silent(targets, rest[k]) {
        assert rest[k] == all[k];
      }
    } else {
      LastNotFound(found, all);
      MembersBeforeLast(found, all);
      forall k | 0 <= k < |rest| ensures rest[k] in found || Silent(targets, rest[k]) {
        assert rest[k] == all[k];
      }
      assert all[|all| - 1] in found || Silent(targets, all[|all| - 1]);
    }
  }

  /** Members of a sequence other than its last element are members of the rest. */
  lemma MembersBeforeLast(part: seq<PeerRecord>, whole: seq<PeerRecord>)
    requires whole != []
    ensures forall r :: r in part && r in whole && r != whole[|whole| - 1] ==> r in whole[..|whole| - 1]
  {
    assert whole == whole[..|whole| - 1] + [whole[|whole| - 1]];
  }

  lemma LastNotFound(found: seq<PeerRecord>, all: seq<PeerRecord>)
    requires forall i, j :: 0 <= i < j < |found| ==> found[i].intent < found[j].intent
    requires forall i, j :: 0 <= i < j < |all| ==> all[i].intent < all[j].intent
    requires forall i :: 0 <= i < |found| ==> found[i] in all
    requires all != [] && (found == [] || found[|found| - 1] != all[|all| - 1])
    ensures all[|all| - 1] !in found
  {
    if found != [] {
      var top := found[|found| - 1];
      assert top in all;
      var k :| 0 <= k < |all| && all[k] == top;
      assert top.intent < all[|all| - 1].intent;
      assert forall i :: 0 <= i < |found| ==> found[i].intent <= top.intent;
    }
  }

  lemma SomeFound(targets: seq<Volume>, found: seq<PeerRecord>, all: seq<PeerRecord>)
    requires SkipsSilent(targets, found, all) && found != []
    ensures all != []
  {
    hide Silent;
    assert found[0] in all;
  }

  lemma {:induction false} SkippingSilentRecords(targets: seq<Volume>, own: Volume, found: seq<PeerRecord>,
                                                 all: seq<PeerRecord>)
    requires SkipsSilent(targets, found, all) && own in targets && Evaluable(own)
    ensures AgainstPeers(own, EvaluateVolume(own).bounds, PreparedPeers(found)) ==
      AgainstPeers(own, EvaluateVolume(own).bounds, PreparedPeers(all))
  {
    if found != [] {
      SomeFound(targets, found, all);
    }
    if all != [] {
      var bounds, last, rest := EvaluateVolume(own).bounds, all[|all| - 1], all[..|all| - 1];
      SkipsSilentTail(targets, found, all);
      hide SkipsSilent, Silent, ComparePeer, Evaluable;
      AgainstAppends(own, bounds, PreparedPeers(rest), RecordPeers(last));
      if found != [] && found[|found| - 1] == last {
        SkippingSilentRecords(targets, own, found[..|found| - 1], rest);
        AgainstAppends(own, bounds, PreparedPeers(found[..|found| - 1]), RecordPeers(last));
      } else {
        SkippingSilentRecords(targets, own, found, rest);
        SilentRecord(targets, own, last);
      }
    }
  }

  lemma {:induction false} SameConflicts(targets: seq<Volume>, volumes: seq<Volume>, found: seq<PeerRecord>,
                                         all: seq<PeerRecord>)
    requires SkipsSilent(targets, found, all) && forall v :: v in volumes ==> v in targets
    ensures Conflicts(volumes, PreparedPeers(found)) == Conflicts(volumes, PreparedPeers(all))
  {
    if volumes != [] {
      var last := volumes[|volumes| - 1];
      assert last in volumes;
      hide SkipsSilent, PreparedPeers, AgainstPeers, Evaluable, OwnProblem;
      SameConflicts(targets, volumes[..|volumes| - 1], found, all);
      if Evaluable(last) {
        SkippingSilentRecords(targets, last, found, all);
      }
    }
  }

  /** With at most one eligible version an intent, the index selects a part of what a full scan selects. */
  lemma SelectionsAgree(d: Data, candidates: set<IntentKey>, own: Id, selected: map<Id, Intent>, full: map<Id, Intent>)
    requires KeyedIntents(d.intents) && L.OneEffective(d.intents) && Selects(d, candidates, selected)
    requires Selects(d, OtherKeys(d, own), full)
    requires forall key :: key in candidates ==> key.0 != own
    ensures forall id :: id in selected ==> id in full && full[id] == selected[id]
    ensures forall id :: id in full ==>
      full[id].id == id && id != own && (id in selected || (id, full[id].version) !in candidates)
  {
    forall id | id in selected ensures id in full && full[id] == selected[id] {
      var key := (id, selected[id].version);
      assert key in OtherKeys(d, own) && EligibleVersion(d, key);
      assert EligibleVersion(d, (id, full[id].version));
    }
    forall id | id in full ensures full[id].id == id && id != own &&
      (id in selected || (id, full[id].version) !in candidates) {
      var key := (id, full[id].version);
      assert key in OtherKeys(d, own) && EligibleVersion(d, key);
    }
  }

  /** The records of every other intent's eligible version, whether or not the index found it. */
  ghost predicate FullAnswer(d: Data, listed: map<Id, seq<Volume>>, provider: Id, own: Id, records: seq<PeerRecord>) {
    exists full: map<Id, Intent> :: Selects(d, OtherKeys(d, own), full) && Hydrates(listed, provider, full, records)
  }

  lemma FoundSkipsSilent(d: Data, listed: map<Id, seq<Volume>>, provider: Id, own: Id, targets: seq<Volume>,
                         selected: map<Id, Intent>, found: seq<PeerRecord>, full: map<Id, Intent>, all: seq<PeerRecord>)
    requires KeyedIntents(d.intents) && KeyedVolumes(d.volumes) && L.OneEffective(d.intents) && Lists(d, listed)
    requires Selects(d, CandidateKeys(d.volumes, own, targets), selected) && Hydrates(listed, provider, selected, found)
    requires Selects(d, OtherKeys(d, own), full) && Hydrates(listed, provider, full, all)
    ensures SkipsSilent(targets, found, all)
  {
    var candidates := CandidateKeys(d.volumes, own, targets);
    SelectionsAgree(d, candidates, own, selected, full);
    forall k | 0 <= k < |all| ensures all[k] in found || Silent(targets, all[k]) {
      var id := all[k].intent;
      assert IsRecord(listed, provider, full, all[k]);
      if id in selected {
        assert HasRecord(found, id);
        var i :| 0 <= i < |found| && found[i].intent == id;
        assert IsRecord(listed, provider, selected, found[i]);
        assert all[k] == found[i];
      } else {
        hide RecordFor, Silent, CandidateKeys;
        MissedIsSilent(d, listed, provider, own, targets, full[id]);
      }
    }
    forall i | 0 <= i < |found| ensures found[i] in all {
      var id := found[i].intent;
      assert IsRecord(listed, provider, selected, found[i]);
      assert HasRecord(all, id);
      var k :| 0 <= k < |all| && all[k].intent == id;
      assert IsRecord(listed, provider, full, all[k]);
      assert found[i] == all[k];
    }
    hide RecordFor, Silent, IsRecord, HasRecord, Selects, CandidateKeys;
  }

  /** The index is exact: what the pre-filter and the local provider report yields the very findings that every
      other intent's eligible version would yield, in the same order. */
  lemma IndexExact(d: Data, listed: map<Id, seq<Volume>>, provider: Id, own: Id, targets: seq<Volume>,
                   found: seq<PeerRecord>, all: seq<PeerRecord>)
    requires KeyedIntents(d.intents) && KeyedVolumes(d.volumes) && L.OneEffective(d.intents) && Lists(d, listed)
    requires LocalAnswer(d, listed, provider, own, targets, found) && FullAnswer(d, listed, provider, own, all)
    ensures Conflicts(targets, PreparedPeers(found)) == Conflicts(targets, PreparedPeers(all))
  {
    hide Selects, Hydrates, CandidateKeys, OtherKeys, Lists, L.OneEffective, SkipsSilent;
    var selected: map<Id, Intent> :| Selects(d, CandidateKeys(d.volumes, own, targets), selected) &&
        Hydrates(listed, provider, selected, found);
    var full: map<Id, Intent> :| Selects(d, OtherKeys(d, own), full) && Hydrates(listed, provider, full, all);
    FoundSkipsSilent(d, listed, provider, own, targets, selected, found, full, all);
    SameConflicts(targets, targets, found, all);
  }

  /** The lifecycle keeps at most one version of an intent eligible, so the index is exact in every reachable state. */
  lemma IndexExactReachable(fleet: FleetFences.Fleet, run: seq<Operations.World>, k: nat, listed: map<Id, seq<Volume>>,
                            provider: Id, own: Id, targets: seq<Volume>, found: seq<PeerRecord>, all: seq<PeerRecord>)
    requires k < |run| && Operations.IsRun(fleet, run) && Lists(run[k].d, listed)
    requires LocalAnswer(run[k].d, listed, provider, own, targets, found)
    requires FullAnswer(run[k].d, listed, provider, own, all)
    ensures Conflicts(targets, PreparedPeers(found)) == Conflicts(targets, PreparedPeers(all))
  {
    Operations.RunKeepsInv(fleet, run, k);
    assert KeyedIntents(run[k].d.intents) && KeyedVolumes(run[k].d.volumes) && L.OneEffective(run[k].d.intents);
    hide *;
    IndexExact(run[k].d, listed, provider, own, targets, found, all);
  }
}
