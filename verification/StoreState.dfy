/** The contents of the durable store as one value, and what each atomic store operation does to it. */
module StoreState {
  import opened Domain

  type IntentKey = (Id, int)
  type VolumeKey = (Id, int, Id)

  datatype Data = Data(
    intents: map<IntentKey, Intent>,
    volumes: map<VolumeKey, Volume>,
    flights: map<Id, Flight>,
    missions: map<Id, Mission>,
    missionByKey: map<Id, Id>,
    deployments: map<Id, Deployment>,
    deploymentByKey: map<Id, Id>,
    creationOrder: map<Id, nat>,
    nextOrder: nat,
    publications: map<Id, Publication>,
    notifications: map<NotificationId, Notification>)

  const EMPTY := Data(map[], map[], map[], map[], map[], map[], map[], map[], 0, map[], map[])

  /** Every record sits under its own key, versions of a flight's missions are distinct, and the creation
      order numbers the deployments. */
  ghost predicate Keyed(d: Data) {
    && KeyedIntents(d.intents)
    && KeyedVolumes(d.volumes)
    && KeyedFlights(d.flights)
    && KeyedMissions(d.missions, d.missionByKey)
    && KeyedDeployments(d.deployments, d.deploymentByKey)
    && KeyedOrder(d.deployments.Keys, d.creationOrder, d.nextOrder)
    && KeyedPublications(d.publications)
    && KeyedNotifications(d.notifications)
  }

  ghost predicate KeyedIntents(intents: map<IntentKey, Intent>) {
    forall k :: k in intents ==> intents[k].id == k.0 && intents[k].version == k.1
  }

  ghost predicate KeyedVolumes(volumes: map<VolumeKey, Volume>) {
    forall k :: k in volumes ==> VolumeKeyOf(volumes[k]) == k
  }

  ghost predicate KeyedFlights(flights: map<Id, Flight>) {
    forall f :: f in flights ==> flights[f].id == f
  }

  ghost predicate KeyedMissions(missions: map<Id, Mission>, byKey: map<Id, Id>) {
    && (forall m :: m in missions ==> missions[m].id == m)
    && (forall m, n :: m in missions && n in missions && SameSlot(missions[m], missions[n]) ==> m == n)
    && (forall key :: key in byKey ==> byKey[key] in missions && missions[byKey[key]].key == key)
  }

  ghost predicate KeyedDeployments(deployments: map<Id, Deployment>, byKey: map<Id, Id>) {
    && (forall id :: id in deployments ==> deployments[id].command.deployment == id)
    && (forall key :: key in byKey ==> byKey[key] in deployments && deployments[byKey[key]].command.key == key)
  }

  ghost predicate KeyedOrder(ids: set<Id>, order: map<Id, nat>, next: nat) {
    && order.Keys == ids
    && (forall id :: id in order ==> order[id] <= next)
    && (forall a, b :: a in order && b in order && order[a] == order[b] ==> a == b)
  }

  ghost predicate KeyedPublications(publications: map<Id, Publication>) {
    forall id :: id in publications ==> publications[id].intent == id
  }

  ghost predicate KeyedNotifications(notifications: map<NotificationId, Notification>) {
    forall id :: id in notifications ==> notifications[id].id == id
  }

  predicate SameSlot(a: Mission, b: Mission) { a.flight == b.flight && a.version == b.version }

  function VolumeKeyOf(v: Volume): VolumeKey { (v.intent, v.intentVersion, v.id) }

  /* ---- what the locked helpers find ---- */

  ghost predicate NoIntent(d: Data, id: Id) {
    forall v :: (id, v) !in d.intents
  }

  /** `version` is the newest stored version of the intent. */
  ghost predicate IsTop(d: Data, id: Id, version: int) {
    (id, version) in d.intents && forall v :: (id, v) in d.intents ==> v <= version
  }

  ghost predicate IsLatest(d: Data, i: Intent) {
    IsTop(d, i.id, i.version) && d.intents[(i.id, i.version)] == i
  }

  /** The newest version is the expected one, unchanged since the caller read it. */
  ghost predicate CurrentIs(d: Data, id: Id, version: int, revision: int) {
    IsTop(d, id, version) && d.intents[(id, version)].revision == revision
  }

  ghost predicate FlightFenced(d: Data, flight: Id) {
    exists id ::
      id in d.deployments && d.deployments[id].command.flight == flight && Outstanding(d.deployments[id].status)
  }

  ghost predicate IntentFenced(d: Data, intent: Id) {
    exists f :: f in d.flights && d.flights[f].intent == intent && FlightFenced(d, f)
  }

  ghost predicate IsCurrentMission(d: Data, mission: Id) {
    && mission in d.missions
    && forall m :: m in d.missions && d.missions[m].flight == d.missions[mission].flight ==>
         d.missions[m].version <= d.missions[mission].version
  }

  ghost predicate MissionIsCurrent(d: Data, flight: Id, mission: Id, digest: Id) {
    IsCurrentMission(d, mission) && d.missions[mission].flight == flight && d.missions[mission].digest == digest
  }

  ghost predicate NoMission(d: Data, flight: Id) {
    forall m :: m in d.missions ==> d.missions[m].flight != flight
  }

  ghost predicate AircraftFlying(d: Data, aircraft: Id) {
    exists f :: f in d.flights && d.flights[f].aircraft == aircraft && d.flights[f].status.Flying?
  }

  /** The deployment belongs to some flight of the aircraft. */
  ghost predicate OnAircraft(d: Data, id: Id, aircraft: Id) {
    && id in d.deployments
    && d.deployments[id].command.flight in d.flights
    && d.flights[d.deployments[id].command.flight].aircraft == aircraft
  }

  /** An outstanding deployment for a planned flight of the aircraft. */
  ghost predicate HoldsAircraft(d: Data, id: Id, aircraft: Id) {
    && OnAircraft(d, id, aircraft)
    && d.flights[d.deployments[id].command.flight].status.Planned?
    && Outstanding(d.deployments[id].status)
  }

  ghost predicate IsNewest(d: Data, id: Id, aircraft: Id) {
    && OnAircraft(d, id, aircraft)
    && id in d.creationOrder
    && forall other :: OnAircraft(d, other, aircraft) && other in d.creationOrder ==>
       d.creationOrder[other] <= d.creationOrder[id]
  }

  /** The flight's intent version is the newest and still accepted or active for the same aircraft and operator. */
  ghost predicate FlightBindingCurrent(d: Data, f: Flight) {
    && IsTop(d, f.intent, f.intentVersion)
    && var i := d.intents[(f.intent, f.intentVersion)];
       i.operator == f.operator && i.aircraft == f.aircraft && (i.status.Accepted? || i.status.Active?)
  }

  /* ---- operational intents ---- */

  ghost function CreateIntent(d: Data, intent: Intent): (Data, Outcome) {
    if IntentFenced(d, intent.id) then (d, VersionConflict)
    else if (intent.id, intent.version) in d.intents then (d, AlreadyExists)
    else (d.(intents := d.intents[(intent.id, intent.version) := intent.(revision := 0)]), Done)
  }

  /** Older accepted versions take `status`; everything else is left alone. */
  function RetireOlder(intents: map<IntentKey, Intent>, id: Id, version: int, status: IntentStatus): map<IntentKey,
                       Intent> {
    map k | k in intents :: Retired(k, intents[k], id, version, status)
  }

  function Retired(k: IntentKey, i: Intent, id: Id, version: int, status: IntentStatus): Intent {
    if k.0 == id && k.1 < version && i.status.Accepted? then i.(status := status, revision := i.revision + 1) else i
  }

  function WithWritten(intents: map<IntentKey, Intent>, intent: Intent, revision: int): map<IntentKey, Intent> {
    intents[(intent.id, intent.version) := intent.(revision := revision)]
  }

  /** Why a write of the newest version is refused, or Done. */
  ghost function IntentWriteGuard(d: Data, id: Id, version: int, expected: int): Outcome {
    if NoIntent(d, id) then NotFound
    else if !CurrentIs(d, id, version, expected) || IntentFenced(d, id) then VersionConflict
    else Done
  }

  ghost function UpdateIntent(d: Data, intent: Intent, expected: int): (Data, Outcome) {
    var guard := IntentWriteGuard(d, intent.id, intent.version, expected);
    if !guard.Done? then (d, guard)
    else (d.(intents := UpdatedIntents(d.intents, intent, expected)), Done)
  }

  function UpdatedIntents(intents: map<IntentKey, Intent>, intent: Intent, expected: int): map<IntentKey, Intent> {
    var written := WithWritten(intents, intent, expected + 1);
    if intent.status.Canceled? || intent.status.Complete?
      then RetireOlder(written, intent.id, intent.version, intent.status)
    else written
  }

  function AcceptedIntents(intents: map<IntentKey, Intent>, intent: Intent, expected: int): map<IntentKey, Intent> {
    RetireOlder(WithWritten(intents, intent, expected + 1), intent.id, intent.version, Superseded)
  }

  ghost function AcceptIntent(d: Data, intent: Intent, expected: int): (Data, Outcome) {
    var guard := IntentWriteGuard(d, intent.id, intent.version, expected);
    if !guard.Done? then (d, guard)
    else (d.(intents := AcceptedIntents(d.intents, intent, expected)), Done)
  }

  ghost predicate OtherActive(d: Data, intent: Intent) {
    exists k :: k in d.intents && k != (intent.id, intent.version) && d.intents[k].aircraft == intent.aircraft &&
                d.intents[k].status.Active?
  }

  ghost function ActivateIntent(d: Data, intent: Intent, expected: int): (Data, Outcome) {
    if NoIntent(d, intent.id) then (d, NotFound)
    else if !CurrentIs(d, intent.id, intent.version, expected) then (d, VersionConflict)
    else if OtherActive(d, intent) then (d, ActiveIntentConflict)
    else UpdateIntent(d, intent, expected)
  }

  predicate InScope(volumes: seq<Volume>, id: Id, version: int) {
    forall k :: 0 <= k < |volumes| ==> volumes[k].intent == id && volumes[k].intentVersion == version
  }

  /** The stored volumes after those of one intent version give way to `volumes`, written in order. */
  function ReplacedVolumes(stored: map<VolumeKey, Volume>, id: Id, version: int, volumes: seq<Volume>): map<VolumeKey,
                           Volume> {
    WriteVolumes(map k | k in stored && !(stored[k].intent == id && stored[k].intentVersion == version) ::
      stored[k], volumes)
  }

  function WriteVolumes(stored: map<VolumeKey, Volume>, volumes: seq<Volume>): map<VolumeKey, Volume> {
    if volumes == [] then stored
    else WriteVolumes(stored, volumes[..|volumes| - 1])[VolumeKeyOf(volumes[|volumes| - 1]) := volumes[|volumes| - 1]]
  }

  function ReplacedIntents(intents: map<IntentKey, Intent>, expectedVersion: int, expected: int,
                           intent: Intent): map<IntentKey, Intent> {
    WithWritten(intents, intent, if intent.version == expectedVersion then expected + 1 else 0)
  }

  ghost function ReplaceIntent(d: Data, expectedVersion: int, expected: int, intent: Intent,
                               volumes: seq<Volume>): (Data, Outcome) {
    if intent.version != expectedVersion && intent.version != expectedVersion + 1 then (d, VersionConflict)
    else if !InScope(volumes, intent.id, intent.version) then (d, OutsideScope)
    else
      var guard := IntentWriteGuard(d, intent.id, expectedVersion, expected);
      if !guard.Done? then (d, guard)
      else (d.(intents := ReplacedIntents(d.intents, expectedVersion, expected, intent),
          volumes := ReplacedVolumes(d.volumes, intent.id, intent.version, volumes)), Done)
  }

  ghost function RecordVolume(d: Data, volume: Volume): (Data, Outcome) {
    if IntentFenced(d, volume.intent) then (d, VersionConflict)
    else (d.(volumes := d.volumes[VolumeKeyOf(volume) := volume]), Done)
  }

  lemma {:induction false} WritesKeepKeys(stored: map<VolumeKey, Volume>, volumes: seq<Volume>)
    requires KeyedVolumes(stored)
    ensures KeyedVolumes(WriteVolumes(stored, volumes))
  {
    if volumes != [] {
      WritesKeepKeys(stored, volumes[..|volumes| - 1]);
    }
  }

  /* ---- flights, missions and deployments ---- */

  function CreateFlight(d: Data, flight: Flight): (Data, Outcome) {
    if flight.id in d.flights then (d, AlreadyExists)
    else (d.(flights := d.flights[flight.id := flight]), Done)
  }

  datatype MissionResult = MissionOk(mission: Mission) | MissionErr(error: Outcome)

  ghost predicate IsNextVersion(d: Data, flight: Id, version: int) {
    && version >= 1
    && (forall m :: m in d.missions && d.missions[m].flight == flight ==> d.missions[m].version < version)
    && (version == 1 || exists m ::
       m in d.missions && d.missions[m].flight == flight && d.missions[m].version == version - 1)
  }

  function AddMission(d: Data, mission: Mission): Data {
    d.(missions := d.missions[mission.id := mission], missionByKey := d.missionByKey[mission.key := mission.id])
  }

  lemma AddMissionKeyed(d: Data, mission: Mission)
    requires Keyed(d) && mission.id !in d.missions && IsNextVersion(d, mission.flight, mission.version)
    ensures Keyed(AddMission(d, mission))
  {
  }

  /** Mission import under the planned-flight fence: `after` and `r` are the only possible outcome. */
  ghost predicate CreatesMission(d: Data, mission: Mission, after: Data, r: MissionResult) {
    if mission.key in d.missionByKey && d.missionByKey[mission.key] in d.missions then
      var existing := d.missions[d.missionByKey[mission.key]];
      after == d && r == if existing.request == mission.request then MissionOk(existing)
        else MissionErr(IdempotencyConflict)
    else if mission.flight !in d.flights then after == d && r == MissionErr(NotFound)
    else
      var flight := d.flights[mission.flight];
      if !flight.status.Planned? then after == d && r == MissionErr(VersionConflict)
      else if NoIntent(d, flight.intent) then after == d && r == MissionErr(NotFound)
      else if !MissionFits(mission, flight) || !FlightBindingCurrent(d, flight) || FlightFenced(d, flight.id) then
        after == d && r == MissionErr(VersionConflict)
      else if mission.id in d.missions then after == d && r == MissionErr(AlreadyExists)
      else
        && r.MissionOk? && r.mission == mission.(version := r.mission.version)
        && IsNextVersion(d, mission.flight, r.mission.version)
        && after == AddMission(d, r.mission)
  }

  predicate MissionFits(m: Mission, f: Flight) {
    m.flight == f.id && m.operator == f.operator && m.aircraft == f.aircraft && m.intent == f.intent &&
    m.intentVersion == f.intentVersion
  }

  predicate CommandFits(c: Command, f: Flight) {
    c.flight == f.id && c.operator == f.operator && c.aircraft == f.aircraft && c.intent == f.intent &&
    c.intentVersion == f.intentVersion
  }

  datatype DeploymentResult = DeploymentOk(deployment: Deployment) | DeploymentErr(error: Outcome)

  function AddDeployment(d: Data, dep: Deployment): Data {
    var id := dep.command.deployment;
    d.(deployments := d.deployments[id := dep], deploymentByKey := d.deploymentByKey[dep.command.key := id],
       nextOrder := d.nextOrder + 1, creationOrder := d.creationOrder[id := d.nextOrder + 1])
  }

  function ReplayId(replay: Option<Deployment>): Option<Id> {
    if replay.Some? then Some(replay.value.command.deployment) else None
  }

  /** Stale binding or mission, a flying aircraft, or another outstanding deployment on the aircraft. */
  ghost predicate AdmissionBlocked(d: Data, c: Command, flight: Flight, replay: Option<Id>) {
    || !CommandFits(c, flight)
    || !FlightBindingCurrent(d, flight)
    || AircraftFlying(d, flight.aircraft)
    || !MissionIsCurrent(d, flight.id, c.mission, c.digest)
    || exists other :: HoldsAircraft(d, other, flight.aircraft) && (replay.None? || other != replay.value)
  }

  lemma AddDeploymentKeyed(d: Data, dep: Deployment)
    requires Keyed(d) && dep.command.deployment !in d.deployments
    ensures Keyed(AddDeployment(d, dep))
  {
  }

  /** Admission of a deployment under the aircraft fence, or replay of the request's earlier admission. */
  ghost function CreateDeployment(d: Data, dep: Deployment): (Data, DeploymentResult) {
    var replay := if dep.command.key in d.deploymentByKey && d.deploymentByKey[dep.command.key] in d.deployments
                  then Some(d.deployments[d.deploymentByKey[dep.command.key]]) else None;
    if replay.Some? && replay.value.command.request != dep.command.request then (d, DeploymentErr(IdempotencyConflict))
    else if replay.Some? && !Outstanding(replay.value.status) then (d, DeploymentOk(replay.value))
    else if dep.command.flight !in d.flights then (d, DeploymentErr(NotFound))
    else
      var flight := d.flights[dep.command.flight];
      if !flight.status.Planned? || dep.command.aircraft != flight.aircraft then (d, DeploymentErr(VersionConflict))
      else if NoIntent(d, flight.intent) then (d, DeploymentErr(NotFound))
      else if AdmissionBlocked(d, dep.command, flight, ReplayId(replay)) then (d, DeploymentErr(VersionConflict))
      else if replay.Some? then (d, DeploymentOk(replay.value))
      else if dep.command.deployment in d.deployments then (d, DeploymentErr(AlreadyExists))
      else (AddDeployment(d, dep.(revision := 0)), DeploymentOk(dep.(revision := 0)))
  }

  ghost predicate MayStart(d: Data, flight: Flight) {
    && (forall f :: f in d.flights && f != flight.id && d.flights[f].aircraft == flight.aircraft ==>
       !d.flights[f].status.Flying?)
    && IsTop(d, flight.intent, flight.intentVersion)
    && d.intents[(flight.intent, flight.intentVersion)].status.Active?
    && d.intents[(flight.intent, flight.intentVersion)].aircraft == flight.aircraft
    && (forall id :: !HoldsAircraft(d, id, flight.aircraft))
    && exists id :: IsNewest(d, id, flight.aircraft) && ServesFlight(d, id, flight.id)
  }

  /** A verified deployment of the flight's current mission. */
  ghost predicate ServesFlight(d: Data, id: Id, flight: Id) {
    && id in d.deployments
    && d.deployments[id].command.flight == flight
    && MissionIsCurrent(d, flight, d.deployments[id].command.mission, d.deployments[id].command.digest)
    && Verified(d.deployments[id].status)
  }

  ghost function StartFlight(d: Data, flight: Flight, expectedStatus: FlightStatus): (Data, Outcome) {
    if flight.id !in d.flights then (d, NotFound)
    else
      var current := d.flights[flight.id];
      if current.status != expectedStatus then (d, VersionConflict)
      else if (exists f ::
        f in d.flights && f != flight.id && d.flights[f].aircraft == current.aircraft && d.flights[f].status.Flying?)
      then (d, VersionConflict)
      else if NoIntent(d, current.intent) then (d, NotFound)
      else if !MayStart(d, current) then (d, VersionConflict)
      else (d.(flights := d.flights[flight.id := flight]), Done)
  }

  ghost predicate FliesBinding(d: Data, f: Id, aircraft: Id, intent: Id, intentVersion: int) {
    f in d.flights && d.flights[f].status.Flying? && d.flights[f].aircraft == aircraft &&
    d.flights[f].intent == intent &&
    d.flights[f].intentVersion == intentVersion
  }

  ghost predicate TwoFly(d: Data, aircraft: Id, intent: Id, intentVersion: int) {
    exists f, g ::
      f != g && FliesBinding(d, f, aircraft, intent, intentVersion) &&
      FliesBinding(d, g, aircraft, intent, intentVersion)
  }

  /** Exactly one flight flies the binding, and a verified deployment of its current mission exists. */
  ghost predicate OneFliesServed(d: Data, aircraft: Id, intent: Id, intentVersion: int) {
    && !TwoFly(d, aircraft, intent, intentVersion)
    && exists f, dep :: FliesBinding(d, f, aircraft, intent, intentVersion) && ServesFlight(d, dep, f)
  }

  predicate SameStoredIdentity(a: Command, b: Command) {
    a.key == b.key && a.request == b.request && a.id == b.id && a.mission == b.mission
  }

  function UpdateDeployment(d: Data, dep: Deployment, expected: int): (Data, Outcome) {
    var id := dep.command.deployment;
    if id !in d.deployments then (d, NotFound)
    else if d.deployments[id].revision != expected || !SameStoredIdentity(d.deployments[id].command, dep.command) then
      (d, VersionConflict)
    else (d.(deployments := d.deployments[id := dep.(revision := expected + 1)]), Done)
  }

  /* ---- publications and notifications ---- */

  /** requestPublicationLocked: the new desired state on top of the external identity already known. */
  function Requested(current: Option<Publication>, request: Publication): Publication {
    var base := match current
      case None => request.(leaseUntil := None)
      case Some(p) =>
        var kept := request.(
          revision := p.revision + 1, publishedVersion := p.publishedVersion, confirmedState := p.confirmedState,
          dssVersion := p.dssVersion, ovn := p.ovn, subscription := p.subscription, leaseUntil := p.leaseUntil);
        if p.syncStatus.Withdrawn? && !request.desiredState.WithdrawnState?
        then kept.(publishedVersion := 0, dssVersion := 0, ovn := NO_OVN) else kept;
    base.(syncStatus := SyncPending, attempts := 0)
  }

  function StoredPublication(d: Data, id: Id): Option<Publication> {
    if id in d.publications then Some(d.publications[id]) else None
  }

  function RequestPublication(d: Data, request: Publication): Data {
    d.(publications := d.publications[request.intent := Requested(StoredPublication(d, request.intent), request)])
  }

  /** A store step and, when it succeeds, the publication request committed with it. */
  function AndRequest(step: (Data, Outcome), request: Publication): (Data, Outcome) {
    if step.1.Done? then (RequestPublication(step.0, request), Done) else step
  }

  ghost function RequestIfCurrent(d: Data, request: Publication, version: int, revision: int,
                                  status: IntentStatus): (Data, Outcome) {
    if NoIntent(d, request.intent) then (d, NotFound)
    else if !CurrentIs(d, request.intent, version, revision) ||
      d.intents[(request.intent, version)].status != status then
      (d, VersionConflict)
    else if (request.intent, request.desiredVersion) !in d.intents then (d, NotFound)
    else (RequestPublication(d, request), Done)
  }

  predicate LeaseFree(lease: Option<int>, now: int) {
    lease.None? || lease.value <= now
  }

  function Claimed(p: Publication, leaseUntil: int): Publication {
    p.(revision := p.revision + 1, syncStatus := Processing, leaseUntil := Some(leaseUntil), attempts := p.attempts + 1)
  }

  datatype ClaimResult = ClaimOk(publication: Publication) | ClaimErr(error: Outcome)

  function ClaimPublication(d: Data, id: Id, now: int, leaseUntil: int): (Data, ClaimResult) {
    if id !in d.publications then (d, ClaimErr(NotFound))
    else if !LeaseFree(d.publications[id].leaseUntil, now) then (d, ClaimErr(VersionConflict))
    else
      var p := Claimed(d.publications[id], leaseUntil);
      (d.(publications := d.publications[id := p]), ClaimOk(p))
  }

  predicate PublicationDue(p: Publication, now: int) {
    && p.nextAttemptAt <= now && LeaseFree(p.leaseUntil, now)
    && (p.syncStatus.SyncPending? || p.syncStatus.Retrying? || p.syncStatus.Processing?)
  }

  ghost predicate ClaimedHere(claimed: seq<Publication>, id: Id) {
    exists i :: 0 <= i < |claimed| && claimed[i].intent == id
  }

  /** The due publications with the smallest identities, at most `limit`, are claimed in order; the rest is kept. */
  ghost predicate ClaimsDue(before: map<Id, Publication>, now: int, leaseUntil: int, limit: int,
                            after: map<Id, Publication>, claimed: seq<Publication>) {
    && after.Keys == before.Keys
    && (forall id :: id in before ==>
       after[id] == if ClaimedHere(claimed, id) then Claimed(before[id], leaseUntil) else before[id])
    && (forall i :: 0 <= i < |claimed| ==> IsDueClaim(before, now, leaseUntil, claimed[i]))
    && (forall i, j :: 0 <= i < j < |claimed| ==> claimed[i].intent < claimed[j].intent)
    && |claimed| <= (if limit > 0 then limit else 0)
    && (forall id :: id in before && PublicationDue(before[id], now) && !ClaimedHere(claimed, id) ==>
          |claimed| >= limit && forall i :: 0 <= i < |claimed| ==> claimed[i].intent < id)
  }

  /** The claims made so far: `due` holds what is still to be claimed, all of it after the claims made. */
  ghost predicate ClaimedSoFar(before: map<Id, Publication>, now: int, leaseUntil: int, due: set<Id>,
                               current: map<Id, Publication>, claimed: seq<Publication>) {
    && current.Keys == before.Keys
    && (forall id :: id in before ==>
       current[id] == if ClaimedHere(claimed, id) then Claimed(before[id], leaseUntil) else before[id])
    && (forall i :: 0 <= i < |claimed| ==> IsDueClaim(before, now, leaseUntil, claimed[i]))
    && (forall i, j :: 0 <= i < j < |claimed| ==> claimed[i].intent < claimed[j].intent)
    && (forall i, id :: 0 <= i < |claimed| && id in due ==> claimed[i].intent < id)
    && (forall id :: id in before && PublicationDue(before[id], now) ==> id in due || ClaimedHere(claimed, id))
    && (forall id :: id in due ==> id in before && PublicationDue(before[id], now))
  }

  lemma ClaimNext(before: map<Id, Publication>, now: int, leaseUntil: int, due: set<Id>, current: map<Id, Publication>,
                  claimed: seq<Publication>, id: Id)
    requires KeyedPublications(before) && ClaimedSoFar(before, now, leaseUntil, due, current, claimed)
    requires id in due && forall x :: x in due ==> id <= x
    ensures var p := Claimed(current[id], leaseUntil);
      ClaimedSoFar(before, now, leaseUntil, due - {id}, current[id := p], claimed + [p])
  {
    var p := Claimed(current[id], leaseUntil);
    assert !ClaimedHere(claimed, id);
    assert p == Claimed(before[id], leaseUntil) && p.intent == id;
    ClaimedAlso(claimed, p);
    hide ClaimedHere;
    assert IsDueClaim(before, now, leaseUntil, p);
    assert forall i :: 0 <= i < |claimed + [p]| ==> (claimed + [p])[i] == if i < |claimed| then claimed[i] else p;
    hide PublicationDue, Claimed, IsDueClaim;
  }

  lemma ClaimsDone(before: map<Id, Publication>, now: int, leaseUntil: int, limit: int, due: set<Id>,
                   current: map<Id, Publication>, claimed: seq<Publication>)
    requires ClaimedSoFar(before, now, leaseUntil, due, current, claimed) && (due == {} || |claimed| >= limit)
    requires |claimed| <= (if limit > 0 then limit else 0)
    ensures ClaimsDue(before, now, leaseUntil, limit, current, claimed)
  {
    hide ClaimedHere, PublicationDue, Claimed;
  }

  lemma ClaimedAlso(claimed: seq<Publication>, p: Publication)
    ensures forall id :: ClaimedHere(claimed + [p], id) <==> ClaimedHere(claimed, id) || id == p.intent
  {
    assert (claimed + [p])[|claimed|] == p;
    forall id | ClaimedHere(claimed, id) ensures ClaimedHere(claimed + [p], id) {
      var i :| 0 <= i < |claimed| && claimed[i].intent == id;
      assert (claimed + [p])[i].intent == id;
    }
  }

  ghost predicate IsDueClaim(before: map<Id, Publication>, now: int, leaseUntil: int, p: Publication) {
    p.intent in before && PublicationDue(before[p.intent], now) && p == Claimed(before[p.intent], leaseUntil)
  }

  function RenewLease(d: Data, id: Id, expected: int, leaseUntil: int): (Data, Outcome) {
    if id !in d.publications then (d, NotFound)
    else if d.publications[id].revision != expected then (d, VersionConflict)
    else (d.(publications := d.publications[id := d.publications[id].(leaseUntil := Some(leaseUntil))]), Done)
  }

  function Written(p: Publication, expected: int): Publication {
    p.(revision := expected + 1, leaseUntil := None)
  }

  function UpdatePublication(d: Data, p: Publication, expected: int): (Data, Outcome) {
    if p.intent !in d.publications then (d, NotFound)
    else if d.publications[p.intent].revision != expected then (d, VersionConflict)
    else (d.(publications := d.publications[p.intent := Written(p, expected)]), Done)
  }

  /** Notifications already queued keep their record. */
  function Enqueue(queued: map<NotificationId, Notification>, added: seq<Notification>): map<NotificationId,
                   Notification> {
    if added == [] then queued
    else
      var rest := Enqueue(queued, added[..|added| - 1]);
      var last := added[|added| - 1];
      if last.id in rest then rest else rest[last.id := last.(revision := 0)]
  }

  function ConfirmPublication(d: Data, p: Publication, expected: int, added: seq<Notification>): (Data, Outcome) {
    var step := UpdatePublication(d, p, expected);
    if step.1.Done? then (step.0.(notifications := Enqueue(d.notifications, added)), Done) else step
  }

  predicate NotificationDue(n: Notification, now: int) {
    n.deliveredAt.None? && n.nextAttemptAt <= now && LeaseFree(n.leaseUntil, now)
  }

  function ClaimedNotification(n: Notification, leaseUntil: int): Notification {
    n.(revision := n.revision + 1, leaseUntil := Some(leaseUntil), attempts := n.attempts + 1)
  }

  ghost predicate TakenHere(taken: seq<Notification>, id: NotificationId) {
    exists i :: 0 <= i < |taken| && taken[i].id == id
  }

  /** Notifications are ordered by the digest of their identity; distinct identities have distinct digests. */
  type Digest = NotificationId -> nat

  ghost predicate Injective(digest: Digest) {
    forall a, b :: digest(a) == digest(b) ==> a == b
  }

  /** The due notifications with the smallest digests, at most `limit`, are claimed in order; the rest is kept. */
  ghost predicate TakesDue(before: map<NotificationId, Notification>, digest: Digest, now: int, leaseUntil: int,
                           limit: int, after: map<NotificationId, Notification>, taken: seq<Notification>) {
    && after.Keys == before.Keys
    && (forall id :: id in before ==>
       after[id] == if TakenHere(taken, id) then ClaimedNotification(before[id], leaseUntil) else before[id])
    && (forall i :: 0 <= i < |taken| ==> IsDueTake(before, now, leaseUntil, taken[i]))
    && (forall i, j :: 0 <= i < j < |taken| ==> digest(taken[i].id) < digest(taken[j].id))
    && |taken| <= (if limit > 0 then limit else 0)
    && (forall id :: id in before && NotificationDue(before[id], now) && !TakenHere(taken, id) ==>
          |taken| >= limit && forall i :: 0 <= i < |taken| ==> digest(taken[i].id) < digest(id))
  }

  ghost predicate TakenSoFar(before: map<NotificationId, Notification>, digest: Digest, now: int, leaseUntil: int,
                             due: set<NotificationId>, current: map<NotificationId, Notification>,
                               taken: seq<Notification>) {
    && current.Keys == before.Keys
    && (forall id :: id in before ==>
       current[id] == if TakenHere(taken, id) then ClaimedNotification(before[id], leaseUntil) else before[id])
    && (forall i :: 0 <= i < |taken| ==> IsDueTake(before, now, leaseUntil, taken[i]))
    && (forall i, j :: 0 <= i < j < |taken| ==> digest(taken[i].id) < digest(taken[j].id))
    && (forall i, id :: 0 <= i < |taken| && id in due ==> digest(taken[i].id) < digest(id))
    && (forall id :: id in before && NotificationDue(before[id], now) ==> id in due || TakenHere(taken, id))
    && (forall id :: id in due ==> id in before && NotificationDue(before[id], now))
  }

  lemma TakeNext(before: map<NotificationId, Notification>, digest: Digest, now: int, leaseUntil: int,
                 due: set<NotificationId>,
                 current: map<NotificationId, Notification>, taken: seq<Notification>, id: NotificationId)
    requires KeyedNotifications(before) && TakenSoFar(before, digest, now, leaseUntil, due, current, taken)
    requires id in due && forall x :: x in due && x != id ==> digest(id) < digest(x)
    ensures var n := ClaimedNotification(current[id], leaseUntil);
      TakenSoFar(before, digest, now, leaseUntil, due - {id}, current[id := n], taken + [n])
  {
    var n := ClaimedNotification(current[id], leaseUntil);
    assert !TakenHere(taken, id);
    assert n == ClaimedNotification(before[id], leaseUntil) && n.id == id;
    TakenAlso(taken, n);
    hide TakenHere;
    assert IsDueTake(before, now, leaseUntil, n);
    assert forall i :: 0 <= i < |taken + [n]| ==> (taken + [n])[i] == if i < |taken| then taken[i] else n;
    hide NotificationDue, ClaimedNotification, IsDueTake;
  }

  lemma TakesDone(before: map<NotificationId, Notification>, digest: Digest, now: int, leaseUntil: int, limit: int,
                  due: set<NotificationId>, current: map<NotificationId, Notification>, taken: seq<Notification>)
    requires TakenSoFar(before, digest, now, leaseUntil, due, current, taken) && (due == {} || |taken| >= limit)
    requires |taken| <= (if limit > 0 then limit else 0)
    ensures TakesDue(before, digest, now, leaseUntil, limit, current, taken)
  {
    hide TakenHere, NotificationDue, ClaimedNotification;
  }

  lemma TakenAlso(taken: seq<Notification>, n: Notification)
    ensures forall id :: TakenHere(taken + [n], id) <==> TakenHere(taken, id) || id == n.id
  {
    assert (taken + [n])[|taken|] == n;
    forall id | TakenHere(taken, id) ensures TakenHere(taken + [n], id) {
      var i :| 0 <= i < |taken| && taken[i].id == id;
      assert (taken + [n])[i].id == id;
    }
  }

  ghost predicate IsDueTake(before: map<NotificationId, Notification>, now: int, leaseUntil: int, n: Notification) {
    n.id in before && NotificationDue(before[n.id], now) && n == ClaimedNotification(before[n.id], leaseUntil)
  }

  function WriteNotification(stored: map<NotificationId, Notification>, n: Notification, expected: int):
    (map<NotificationId, Notification>, Outcome)
  {
    if n.id !in stored then (stored, NotFound)
    else if stored[n.id].revision != expected then (stored, VersionConflict)
    else (stored[n.id := n.(revision := expected + 1, leaseUntil := None)], Done)
  }

  function UpdateNotification(d: Data, n: Notification, expected: int): (Data, Outcome) {
    var step := WriteNotification(d.notifications, n, expected);
    (d.(notifications := step.0), step.1)
  }
}
