/** The in-memory durable store: every public method is one critical section of its mutex. Each is
    proved to move the store's contents exactly as StoreState says and to keep its indexes consistent. */
module Store {
  import opened Domain
  import opened StoreState

  class Store {
    var intents: map<IntentKey, Intent>
    var volumes: map<VolumeKey, Volume>
    var flights: map<Id, Flight>
    var missions: map<Id, Mission>
    var missionByKey: map<Id, Id>
    var deployments: map<Id, Deployment>
    var deploymentByKey: map<Id, Id>
    var creationOrder: map<Id, nat>
    var nextOrder: nat
    var publications: map<Id, Publication>
    var notifications: map<NotificationId, Notification>
    const digest: Digest

    ghost function Contents(): Data
      reads this
    {
      Data(intents, volumes, flights, missions, missionByKey, deployments, deploymentByKey, creationOrder, nextOrder,
           publications, notifications)
    }

    ghost predicate Valid()
      reads this
    {
      Keyed(Contents()) && Injective(digest)
    }

    constructor (digest: Digest)
      requires Injective(digest)
      ensures Valid() && Contents() == EMPTY
    {
      this.digest := digest;
      intents, volumes, flights := map[], map[], map[];
      missions, missionByKey := map[], map[];
      deployments, deploymentByKey, creationOrder, nextOrder := map[], map[], map[], 0;
      publications, notifications := map[], map[];
    }

    /* ---- scans shared by the fenced operations ---- */

    /** latestOperationalIntent. */
    method LatestIntent(id: Id) returns (latest: Option<Intent>)
      requires Valid()
      ensures latest.None? <==> NoIntent(Contents(), id)
      ensures latest.Some? ==> latest.value.id == id && IsLatest(Contents(), latest.value)
    {
      latest := None;
      var remaining := intents.Keys;
      while remaining != {}
        invariant remaining <= intents.Keys
        invariant latest.None? ==> forall k :: k in intents && k !in remaining ==> k.0 != id
        invariant latest.Some? ==> latest.value.id == id && (id, latest.value.version) in intents
        invariant latest.Some? ==> intents[(id, latest.value.version)] == latest.value
        invariant latest.Some? ==> forall k :: k in intents && k !in remaining && k.0 == id ==>
          k.1 <= latest.value.version
      {
        var k :| k in remaining;
        remaining := remaining - {k};
        if k.0 == id && (latest.None? || latest.value.version < k.1) {
          latest := Some(intents[k]);
        }
      }
    }

    /** hasOutstandingMissionDeploymentForFlightLocked. */
    method HasOutstandingForFlight(flight: Id) returns (fenced: bool)
      ensures fenced <==> FlightFenced(Contents(), flight)
    {
      var remaining := deployments.Keys;
      while remaining != {}
        invariant remaining <= deployments.Keys
        invariant forall id :: id in deployments && id !in remaining ==>
                    deployments[id].command.flight != flight || !Outstanding(deployments[id].status)
      {
        var id :| id in remaining;
        if deployments[id].command.flight == flight && Outstanding(deployments[id].status) {
          return true;
        }
        remaining := remaining - {id};
      }
      return false;
    }

    /** hasOutstandingMissionDeploymentForIntentLocked. */
    method HasOutstandingForIntent(intent: Id) returns (fenced: bool)
      ensures fenced <==> IntentFenced(Contents(), intent)
    {
      var remaining := flights.Keys;
      while remaining != {}
        invariant remaining <= flights.Keys
        invariant forall f :: f in flights && f !in remaining ==>
          flights[f].intent != intent || !FlightFenced(Contents(), f)
      {
        var f :| f in remaining;
        if flights[f].intent == intent {
          var fenced := HasOutstandingForFlight(f);
          if fenced {
            return true;
          }
        }
        remaining := remaining - {f};
      }
      return false;
    }

    /** currentMissionForFlightLocked and GetCurrentMissionForFlight. */
    method CurrentMission(flight: Id) returns (current: Option<Mission>)
      requires Valid()
      ensures current.None? <==> NoMission(Contents(), flight)
      ensures current.Some? ==> current.value.id in missions && missions[current.value.id] == current.value
      ensures current.Some? ==> current.value.flight == flight && IsCurrentMission(Contents(), current.value.id)
    {
      current := None;
      var remaining := missions.Keys;
      while remaining != {}
        invariant remaining <= missions.Keys
        invariant current.None? ==> forall m :: m in missions && m !in remaining ==> missions[m].flight != flight
        invariant current.Some? ==> current.value.id in missions && missions[current.value.id] == current.value
        invariant current.Some? ==> current.value.flight == flight
        invariant current.Some? ==> forall m :: m in missions && m !in remaining && missions[m].flight == flight ==>
                    missions[m].version <= current.value.version
      {
        var m :| m in remaining;
        remaining := remaining - {m};
        if missions[m].flight == flight && (current.None? || current.value.version < missions[m].version) {
          current := Some(missions[m]);
        }
      }
    }

    /** The newest deployment over all flights of the aircraft. */
    method NewestDeployment(aircraft: Id) returns (newest: Option<Id>)
      requires Valid()
      ensures newest.None? ==> forall id :: !OnAircraft(Contents(), id, aircraft)
      ensures newest.Some? ==> IsNewest(Contents(), newest.value, aircraft)
    {
      newest := None;
      var remaining := deployments.Keys;
      while remaining != {}
        invariant remaining <= deployments.Keys
        invariant newest.None? ==> forall id :: id in deployments && id !in remaining ==>
          !OnAircraft(Contents(), id, aircraft)
        invariant newest.Some? ==> OnAircraft(Contents(), newest.value, aircraft)
        invariant newest.Some? ==>
          forall id :: id in deployments && id !in remaining && OnAircraft(Contents(), id, aircraft) ==>
                    creationOrder[id] <= creationOrder[newest.value]
      {
        var id :| id in remaining;
        remaining := remaining - {id};
        var flight := deployments[id].command.flight;
        if flight in flights && flights[flight].aircraft == aircraft
           && (newest.None? || creationOrder[newest.value] < creationOrder[id]) {
          newest := Some(id);
        }
      }
    }

    method AnotherHolds(aircraft: Id, except: Option<Id>) returns (held: bool)
      ensures held <==> exists id :: HoldsAircraft(Contents(), id, aircraft) && (except.None? || id != except.value)
    {
      var remaining := deployments.Keys;
      while remaining != {}
        invariant remaining <= deployments.Keys
        invariant forall id :: id in deployments && id !in remaining ==>
                    !HoldsAircraft(Contents(), id, aircraft) || (except.Some? && id == except.value)
      {
        var id :| id in remaining;
        var flight := deployments[id].command.flight;
        if flight in flights && flights[flight].aircraft == aircraft && flights[flight].status.Planned?
           && Outstanding(deployments[id].status) && (except.None? || id != except.value) {
          assert HoldsAircraft(Contents(), id, aircraft);
          return true;
        }
        remaining := remaining - {id};
      }
      return false;
    }

    method AnotherFlying(aircraft: Id, except: Option<Id>) returns (flying: bool)
      ensures flying <==> exists f :: f in flights && (except.None? || f != except.value) &&
                                      flights[f].aircraft == aircraft && flights[f].status.Flying?
    {
      var remaining := flights.Keys;
      while remaining != {}
        invariant remaining <= flights.Keys
        invariant forall f :: f in flights && f !in remaining && (except.None? || f != except.value) ==>
                    flights[f].aircraft != aircraft || !flights[f].status.Flying?
      {
        var f :| f in remaining;
        if (except.None? || f != except.value) && flights[f].aircraft == aircraft && flights[f].status.Flying? {
          return true;
        }
        remaining := remaining - {f};
      }
      return false;
    }

    method AnotherActiveIntent(intent: Intent) returns (active: bool)
      ensures active <==> OtherActive(Contents(), intent)
    {
      var remaining := intents.Keys;
      while remaining != {}
        invariant remaining <= intents.Keys
        invariant forall k :: k in intents && k !in remaining && k != (intent.id, intent.version) ==>
                    intents[k].aircraft != intent.aircraft || !intents[k].status.Active?
      {
        var k :| k in remaining;
        if k != (intent.id, intent.version) && intents[k].aircraft == intent.aircraft && intents[k].status.Active? {
          return true;
        }
        remaining := remaining - {k};
      }
      return false;
    }

    /* ---- operational intents ---- */

    method CreateOperationalIntent(intent: Intent) returns (r: Outcome)
      requires Valid()
      modifies this
      ensures Valid() && (Contents(), r) == CreateIntent(old(Contents()), intent)
    {
      var fenced := HasOutstandingForIntent(intent.id);
      if fenced {
        return VersionConflict;
      }
      if (intent.id, intent.version) in intents {
        return AlreadyExists;
      }
      intents := intents[(intent.id, intent.version) := intent.(revision := 0)];
      return Done;
    }

    method WriteIntent(intent: Intent, revision: int)
      modifies this`intents
      ensures intents == WithWritten(old(intents), intent, revision)
      ensures KeyedIntents(old(intents)) ==> KeyedIntents(intents)
    {
      intents := intents[(intent.id, intent.version) := intent.(revision := revision)];
    }

    /** The loops that retire older accepted versions after a terminal transition or an acceptance. */
    method RetireOlderAccepted(id: Id, version: int, status: IntentStatus)
      requires !status.Accepted?
      modifies this`intents
      ensures intents == RetireOlder(old(intents), id, version, status)
      ensures KeyedIntents(old(intents)) ==> KeyedIntents(intents)
    {
      ghost var before := intents;
      var remaining := intents.Keys;
      while remaining != {}
        invariant remaining <= intents.Keys == before.Keys
        invariant forall k :: k in remaining ==> intents[k] == before[k]
        invariant forall k :: k in before && k !in remaining ==>
          intents[k] == Retired(k, before[k], id, version, status)
      {
        var k :| k in remaining;
        remaining := remaining - {k};
        var prior := intents[k];
        if k.0 == id && k.1 < version && prior.status.Accepted? {
          intents := intents[k := prior.(status := status, revision := prior.revision + 1)];
        }
      }
    }

    /** The guard every write of the newest version starts with. */
    method GuardIntentWrite(id: Id, version: int, expected: int) returns (r: Outcome)
      requires Valid()
      ensures r == IntentWriteGuard(Contents(), id, version, expected)
    {
      var current := LatestIntent(id);
      if current.None? {
        return NotFound;
      }
      if current.value.version != version || current.value.revision != expected {
        return VersionConflict;
      }
      var fenced := HasOutstandingForIntent(id);
      return if fenced then VersionConflict else Done;
    }

    /** updateOperationalIntentLocked. */
    method UpdateOperationalIntent(intent: Intent, expected: int) returns (r: Outcome)
      requires Valid()
      modifies this
      ensures Valid() && (Contents(), r) == UpdateIntent(old(Contents()), intent, expected)
    {
      hide IntentWriteGuard, RetireOlder, KeyedIntents;
      r := GuardIntentWrite(intent.id, intent.version, expected);
      if r.Done? {
        WriteIntent(intent, expected + 1);
        if intent.status.Canceled? || intent.status.Complete? {
          RetireOlderAccepted(intent.id, intent.version, intent.status);
        }
      }
    }

    /** acceptOperationalIntentLocked. */
    method AcceptOperationalIntent(intent: Intent, expected: int) returns (r: Outcome)
      requires Valid()
      modifies this
      ensures Valid() && (Contents(), r) == AcceptIntent(old(Contents()), intent, expected)
    {
      hide IntentWriteGuard, RetireOlder, KeyedIntents;
      r := GuardIntentWrite(intent.id, intent.version, expected);
      if r.Done? {
        WriteIntent(intent, expected + 1);
        RetireOlderAccepted(intent.id, intent.version, Superseded);
      }
    }

    method ActivateOperationalIntent(intent: Intent, expected: int) returns (r: Outcome)
      requires Valid()
      modifies this
      ensures Valid() && (Contents(), r) == ActivateIntent(old(Contents()), intent, expected)
    {
      var current := LatestIntent(intent.id);
      if current.None? {
        return NotFound;
      }
      if current.value.version != intent.version || current.value.revision != expected {
        return VersionConflict;
      }
      var active := AnotherActiveIntent(intent);
      if active {
        return ActiveIntentConflict;
      }
      r := UpdateOperationalIntent(intent, expected);
    }

    method ReplaceOperationalIntent(expectedVersion: int, expected: int, intent: Intent, replacements: seq<Volume>)
        returns (r: Outcome)
      requires Valid()
      modifies this
      ensures Valid() && (Contents(), r) ==
        ReplaceIntent(old(Contents()), expectedVersion, expected, intent, replacements)
    {
      if intent.version != expectedVersion && intent.version != expectedVersion + 1 {
        return VersionConflict;
      }
      if exists k ::
        0 <= k < |replacements| && !(replacements[k].intent == intent.id &&
          replacements[k].intentVersion == intent.version) {
        return OutsideScope;
      }
      hide IntentWriteGuard, ReplacedVolumes, KeyedVolumes;
      r := GuardIntentWrite(intent.id, expectedVersion, expected);
      if r.Done? {
        var revision := if intent.version == expectedVersion then expected + 1 else 0;
        WriteIntent(intent, revision);
        WriteReplacements(intent.id, intent.version, replacements);
      }
    }

    /** Deletes the stored volumes of one intent version, then records the replacements in order. */
    method WriteReplacements(id: Id, version: int, replacements: seq<Volume>)
      requires KeyedVolumes(volumes)
      modifies this`volumes
      ensures volumes == ReplacedVolumes(old(volumes), id, version, replacements)
      ensures KeyedVolumes(volumes)
    {
      volumes := map k | k in volumes && !(volumes[k].intent == id && volumes[k].intentVersion == version) ::
        volumes[k];
      ghost var kept := volumes;
      var i := 0;
      while i < |replacements|
        invariant 0 <= i <= |replacements|
        invariant volumes == WriteVolumes(kept, replacements[..i])
        invariant KeyedVolumes(volumes)
      {
        volumes := volumes[VolumeKeyOf(replacements[i]) := replacements[i]];
        i := i + 1;
        assert replacements[..i][..i - 1] == replacements[..i - 1];
      }
      assert replacements[..i] == replacements;
    }

    method RecordOperationalVolume(volume: Volume) returns (r: Outcome)
      requires Valid()
      modifies this
      ensures Valid() && (Contents(), r) == RecordVolume(old(Contents()), volume)
    {
      var fenced := HasOutstandingForIntent(volume.intent);
      if fenced {
        return VersionConflict;
      }
      volumes := volumes[VolumeKeyOf(volume) := volume];
      return Done;
    }

    /* ---- flights, missions and deployments ---- */

    method CreateFlightRecord(flight: Flight) returns (r: Outcome)
      requires Valid()
      modifies this
      ensures Valid() && (Contents(), r) == CreateFlight(old(Contents()), flight)
    {
      if flight.id in flights {
        return AlreadyExists;
      }
      flights := flights[flight.id := flight];
      return Done;
    }

    method BindingCurrent(flight: Flight) returns (latest: Option<Intent>, current: bool)
      requires Valid()
      ensures latest.None? <==> NoIntent(Contents(), flight.intent)
      ensures current <==> FlightBindingCurrent(Contents(), flight)
    {
      latest := LatestIntent(flight.intent);
      current := latest.Some? && latest.value.version == flight.intentVersion &&
      latest.value.operator == flight.operator
        && latest.value.aircraft == flight.aircraft && (latest.value.status.Accepted? || latest.value.status.Active?);
    }

    method CreateMissionForPlannedFlight(mission: Mission) returns (r: MissionResult)
      requires Valid()
      modifies this
      ensures Valid() && CreatesMission(old(Contents()), mission, Contents(), r)
    {
      hide FlightBindingCurrent, NoIntent, FlightFenced, IsNextVersion, KeyedIntents, KeyedOrder, KeyedDeployments;
      if mission.key in missionByKey {
        var existing := missions[missionByKey[mission.key]];
        return if existing.request == mission.request then MissionOk(existing) else MissionErr(IdempotencyConflict);
      }
      if mission.flight !in flights {
        return MissionErr(NotFound);
      }
      var flight := flights[mission.flight];
      if !flight.status.Planned? {
        return MissionErr(VersionConflict);
      }
      var latest, current := BindingCurrent(flight);
      if latest.None? {
        return MissionErr(NotFound);
      }
      if !MissionFits(mission, flight) || !current {
        return MissionErr(VersionConflict);
      }
      var fenced := HasOutstandingForFlight(flight.id);
      if fenced {
        return MissionErr(VersionConflict);
      }
      if mission.id in missions {
        return MissionErr(AlreadyExists);
      }
      var version := NextMissionVersion(mission.flight);
      var stored := mission.(version := version);
      AddMissionKeyed(Contents(), stored);
      missions := missions[stored.id := stored];
      missionByKey := missionByKey[stored.key := stored.id];
      return MissionOk(stored);
    }

    method NextMissionVersion(flight: Id) returns (version: int)
      ensures IsNextVersion(Contents(), flight, version)
    {
      version := 1;
      var remaining := missions.Keys;
      while remaining != {}
        invariant remaining <= missions.Keys
        invariant version >= 1
        invariant forall m :: m in missions && m !in remaining && missions[m].flight == flight ==>
          missions[m].version < version
        invariant version == 1 || exists m ::
          m in missions && missions[m].flight == flight && missions[m].version == version - 1
      {
        var m :| m in remaining;
        remaining := remaining - {m};
        if missions[m].flight == flight && missions[m].version >= version {
          version := missions[m].version + 1;
        }
      }
    }

    method CreateMissionDeploymentForPlannedFlight(dep: Deployment) returns (r: DeploymentResult)
      requires Valid()
      modifies this
      ensures Valid() && (Contents(), r) == CreateDeployment(old(Contents()), dep)
    {
      hide AdmissionBlocked, KeyedOrder, NoIntent, KeyedIntents, KeyedVolumes, KeyedFlights, KeyedMissions,
          KeyedPublications,
        KeyedNotifications, Injective;
      var replay: Option<Deployment> := None;
      if dep.command.key in deploymentByKey {
        var existing := deployments[deploymentByKey[dep.command.key]];
        if existing.command.request != dep.command.request {
          return DeploymentErr(IdempotencyConflict);
        }
        if !Outstanding(existing.status) {
          return DeploymentOk(existing);
        }
        replay := Some(existing);
      }
      if dep.command.flight !in flights {
        return DeploymentErr(NotFound);
      }
      var flight := flights[dep.command.flight];
      if !flight.status.Planned? || dep.command.aircraft != flight.aircraft {
        return DeploymentErr(VersionConflict);
      }
      var latest := LatestIntent(flight.intent);
      if latest.None? {
        return DeploymentErr(NotFound);
      }
      var blocked := AdmissionIsBlocked(dep.command, flight, ReplayId(replay));
      if blocked {
        return DeploymentErr(VersionConflict);
      }
      if replay.Some? {
        return DeploymentOk(replay.value);
      }
      if dep.command.deployment in deployments {
        return DeploymentErr(AlreadyExists);
      }
      AddDeploymentKeyed(Contents(), dep.(revision := 0));
      nextOrder := nextOrder + 1;
      deployments := deployments[dep.command.deployment := dep.(revision := 0)];
      deploymentByKey := deploymentByKey[dep.command.key := dep.command.deployment];
      creationOrder := creationOrder[dep.command.deployment := nextOrder];
      return DeploymentOk(dep.(revision := 0));
    }

    method AdmissionIsBlocked(c: Command, flight: Flight, replay: Option<Id>) returns (blocked: bool)
      requires Valid() && c.flight in flights && flights[c.flight] == flight
      ensures blocked <==> AdmissionBlocked(Contents(), c, flight, replay)
    {
      var latest, current := BindingCurrent(flight);
      if !CommandFits(c, flight) || !current {
        return true;
      }
      var flying := AnotherFlying(flight.aircraft, None);
      if flying {
        return true;
      }
      var mission := CurrentMission(c.flight);
      if mission.None? || mission.value.id != c.mission || mission.value.digest != c.digest {
        return true;
      }
      blocked := AnotherHolds(flight.aircraft, replay);
    }

    method StartFlightWithCurrentMissionDeployment(flight: Flight, expectedStatus: FlightStatus) returns (r: Outcome)
      requires Valid()
      modifies this
      ensures Valid() && (Contents(), r) == StartFlight(old(Contents()), flight, expectedStatus)
    {
      if flight.id !in flights {
        return NotFound;
      }
      var current := flights[flight.id];
      if current.status != expectedStatus {
        return VersionConflict;
      }
      var flying := AnotherFlying(current.aircraft, Some(flight.id));
      if flying {
        return VersionConflict;
      }
      r := StartCheck(current);
      hide MayStart, NoIntent;
      if r.Done? {
        flights := flights[flight.id := flight];
      }
    }

    /** The intent, mission and deployment checks of a start. */
    method StartCheck(current: Flight) returns (r: Outcome)
      requires Valid() && current.id in flights && flights[current.id] == current
      requires forall f :: f in flights && f != current.id && flights[f].aircraft == current.aircraft ==>
        !flights[f].status.Flying?
      ensures r == if NoIntent(Contents(), current.intent) then NotFound else if MayStart(Contents(), current) then Done
        else VersionConflict
    {
      hide KeyedVolumes, KeyedFlights, KeyedDeployments, KeyedPublications, KeyedNotifications, Injective;
      var intent := LatestIntent(current.intent);
      if intent.None? {
        return NotFound;
      }
      if !intent.value.status.Active? || intent.value.version != current.intentVersion ||
        intent.value.aircraft != current.aircraft {
        return VersionConflict;
      }
      var mission := CurrentMission(current.id);
      if mission.None? {
        return VersionConflict;
      }
      var held := AnotherHolds(current.aircraft, None);
      if held {
        return VersionConflict;
      }
      var newest := NewestDeployment(current.aircraft);
      if newest.None? {
        return VersionConflict;
      }
      var latest := deployments[newest.value];
      if latest.command.flight != current.id || latest.command.mission != mission.value.id
         || latest.command.digest != mission.value.digest || !Verified(latest.status) {
        return VersionConflict;
      }
      return Done;
    }

    method UpdateMissionDeployment(dep: Deployment, expected: int) returns (r: Outcome)
      requires Valid()
      modifies this
      ensures Valid() && (Contents(), r) == UpdateDeployment(old(Contents()), dep, expected)
    {
      if dep.command.deployment !in deployments {
        return NotFound;
      }
      var existing := deployments[dep.command.deployment];
      if existing.revision != expected || !SameStoredIdentity(existing.command, dep.command) {
        return VersionConflict;
      }
      deployments := deployments[dep.command.deployment := dep.(revision := expected + 1)];
      return Done;
    }

    /** The current mission of the one flying flight with this binding, if a verified deployment names it. */
    method GetDeployedMissionForActiveFlight(aircraft: Id, intent: Id, intentVersion: int) returns (r: MissionResult)
      requires Valid()
      ensures r.MissionOk? <==> OneFliesServed(Contents(), aircraft, intent, intentVersion)
      ensures r.MissionOk? ==> r.mission.id in missions && missions[r.mission.id] == r.mission
      ensures r.MissionOk? ==> IsCurrentMission(Contents(), r.mission.id)
      ensures r.MissionOk? ==> FliesBinding(Contents(), r.mission.flight, aircraft, intent, intentVersion)
      ensures r == MissionErr(VersionConflict) <==> TwoFly(Contents(), aircraft, intent, intentVersion)
    {
      var active: Option<Id> := None;
      var remaining := flights.Keys;
      while remaining != {}
        invariant remaining <= flights.Keys
        invariant active.None? ==> forall f :: f in flights && f !in remaining ==>
                    !FliesBinding(Contents(), f, aircraft, intent, intentVersion)
        invariant active.Some? ==> FliesBinding(Contents(), active.value, aircraft, intent, intentVersion)
        invariant active.Some? ==> forall f :: f in flights && f !in remaining && f != active.value ==>
                    !FliesBinding(Contents(), f, aircraft, intent, intentVersion)
        invariant active.Some? ==> active.value !in remaining
      {
        var f :| f in remaining;
        remaining := remaining - {f};
        if flights[f].status.Flying? && flights[f].aircraft == aircraft && flights[f].intent == intent
           && flights[f].intentVersion == intentVersion {
          if active.Some? {
            assert FliesBinding(Contents(), f, aircraft, intent, intentVersion);
            return MissionErr(VersionConflict);
          }
          active := Some(f);
        }
      }
      if active.None? {
        return MissionErr(NotFound);
      }
      var current := CurrentMission(active.value);
      if current.None? {
        return MissionErr(NotFound);
      }
      var candidates := deployments.Keys;
      while candidates != {}
        invariant candidates <= deployments.Keys
        invariant forall id :: id in deployments && id !in candidates ==> !ServesFlight(Contents(), id, active.value)
      {
        var id :| id in candidates;
        candidates := candidates - {id};
        var dep := deployments[id];
        if dep.command.flight == active.value && dep.command.mission == current.value.id
           && dep.command.digest == current.value.digest && Verified(dep.status) {
          assert ServesFlight(Contents(), id, active.value);
          return MissionOk(current.value);
        }
      }
      return MissionErr(NotFound);
    }

    /* ---- publications and notifications ---- */

    method RequestPublicationLocked(request: Publication)
      requires Valid()
      modifies this
      ensures Valid() && Contents() == RequestPublication(old(Contents()), request)
    {
      var current := if request.intent in publications then Some(publications[request.intent]) else None;
      publications := publications[request.intent := Requested(current, request)];
    }

    method AcceptOperationalIntentAndRequestPublication(intent: Intent, expected: int, request: Publication)
        returns (r: Outcome)
      requires Valid()
      modifies this
      ensures Valid() && (Contents(), r) == AndRequest(AcceptIntent(old(Contents()), intent, expected), request)
    {
      r := AcceptOperationalIntent(intent, expected);
      if r.Done? {
        RequestPublicationLocked(request);
      }
    }

    method UpdateOperationalIntentAndRequestPublication(intent: Intent, expected: int, request: Publication)
        returns (r: Outcome)
      requires Valid()
      modifies this
      ensures Valid() && (Contents(), r) == AndRequest(UpdateIntent(old(Contents()), intent, expected), request)
    {
      r := UpdateOperationalIntent(intent, expected);
      if r.Done? {
        RequestPublicationLocked(request);
      }
    }

    method RequestOperationalIntentPublicationIfCurrent(request: Publication, version: int, revision: int,
        status: IntentStatus)
        returns (r: Outcome)
      requires Valid()
      modifies this
      ensures Valid() && (Contents(), r) == RequestIfCurrent(old(Contents()), request, version, revision, status)
    {
      var current := LatestIntent(request.intent);
      if current.None? {
        return NotFound;
      }
      if current.value.version != version || current.value.revision != revision || current.value.status != status {
        return VersionConflict;
      }
      if (request.intent, request.desiredVersion) !in intents {
        return NotFound;
      }
      RequestPublicationLocked(request);
      return Done;
    }

    method ClaimOperationalIntentPublication(id: Id, now: int, leaseUntil: int) returns (r: ClaimResult)
      requires Valid()
      modifies this
      ensures Valid() && (Contents(), r) == ClaimPublication(old(Contents()), id, now, leaseUntil)
    {
      if id !in publications {
        return ClaimErr(NotFound);
      }
      var p := publications[id];
      if p.leaseUntil.Some? && p.leaseUntil.value > now {
        return ClaimErr(VersionConflict);
      }
      p := p.(revision := p.revision + 1, syncStatus := Processing, leaseUntil := Some(leaseUntil),
        attempts := p.attempts + 1);
      publications := publications[id := p];
      return ClaimOk(p);
    }

    method DuePublications(now: int) returns (due: set<Id>)
      ensures forall id :: id in due <==> id in publications && PublicationDue(publications[id], now)
    {
      due := {};
      var remaining := publications.Keys;
      while remaining != {}
        invariant remaining <= publications.Keys
        invariant forall id :: id in due <==>
          id in publications && id !in remaining && PublicationDue(publications[id], now)
      {
        var id :| id in remaining;
        remaining := remaining - {id};
        if PublicationDue(publications[id], now) {
          due := due + {id};
        }
      }
    }

    static method Smallest(ids: set<Id>) returns (least: Id)
      requires ids != {}
      ensures least in ids && forall id :: id in ids ==> least <= id
    {
      least :| least in ids;
      var remaining := ids - {least};
      while remaining != {}
        invariant remaining <= ids && least in ids
        invariant forall id :: id in ids && id !in remaining ==> least <= id
      {
        var id :| id in remaining;
        remaining := remaining - {id};
        if id < least {
          least := id;
        }
      }
    }

    method ClaimDueOperationalIntentPublications(now: int, leaseUntil: int, limit: int)
        returns (claimed: seq<Publication>)
      requires Valid()
      modifies this`publications
      ensures Valid() && Contents() == old(Contents()).(publications := publications)
      ensures ClaimsDue(old(publications), now, leaseUntil, limit, publications, claimed)
    {
      claimed := ClaimDue(now, leaseUntil, limit);
      hide ClaimsDue, KeyedPublications;
    }

    method ClaimDue(now: int, leaseUntil: int, limit: int) returns (claimed: seq<Publication>)
      requires KeyedPublications(publications)
      modifies this`publications
      ensures KeyedPublications(publications)
      ensures ClaimsDue(old(publications), now, leaseUntil, limit, publications, claimed)
    {
      ghost var before := publications;
      claimed := [];
      var due := DuePublications(now);
      assert ClaimedSoFar(before, now, leaseUntil, due, publications, claimed);
      hide ClaimedSoFar, ClaimsDue, PublicationDue;
      while due != {} && |claimed| < limit
        invariant KeyedPublications(publications) && |claimed| <= (if limit > 0 then limit else 0)
        invariant publications.Keys == before.Keys && due <= before.Keys
        invariant ClaimedSoFar(before, now, leaseUntil, due, publications, claimed)
      {
        var id := Smallest(due);
        ClaimNext(before, now, leaseUntil, due, publications, claimed, id);
        var p := Claimed(publications[id], leaseUntil);
        due := due - {id};
        publications := publications[id := p];
        claimed := claimed + [p];
      }
      ClaimsDone(before, now, leaseUntil, limit, due, publications, claimed);
    }

    method RenewOperationalIntentPublicationLease(id: Id, expected: int, leaseUntil: int) returns (r: Outcome)
      requires Valid()
      modifies this
      ensures Valid() && (Contents(), r) == RenewLease(old(Contents()), id, expected, leaseUntil)
    {
      if id !in publications {
        return NotFound;
      }
      if publications[id].revision != expected {
        return VersionConflict;
      }
      publications := publications[id := publications[id].(leaseUntil := Some(leaseUntil))];
      return Done;
    }

    method UpdateOperationalIntentPublication(p: Publication, expected: int) returns (r: Outcome)
      requires Valid()
      modifies this
      ensures Valid() && (Contents(), r) == UpdatePublication(old(Contents()), p, expected)
      ensures notifications == old(notifications)
    {
      if p.intent !in publications {
        return NotFound;
      }
      if publications[p.intent].revision != expected {
        return VersionConflict;
      }
      publications := publications[p.intent := p.(revision := expected + 1, leaseUntil := None)];
      return Done;
    }

    method ConfirmOperationalIntentPublication(p: Publication, expected: int, added: seq<Notification>)
        returns (r: Outcome)
      requires Valid()
      modifies this
      ensures Valid() && (Contents(), r) == ConfirmPublication(old(Contents()), p, expected, added)
    {
      r := UpdateOperationalIntentPublication(p, expected);
      if r.Done? {
        EnqueuePeerNotifications(added);
      }
    }

    method EnqueuePeerNotifications(added: seq<Notification>)
      requires KeyedNotifications(notifications)
      modifies this`notifications
      ensures notifications == Enqueue(old(notifications), added)
      ensures KeyedNotifications(notifications)
    {
      ghost var queued := notifications;
      var i := 0;
      while i < |added|
        invariant 0 <= i <= |added|
        invariant notifications == Enqueue(queued, added[..i])
        invariant KeyedNotifications(notifications)
      {
        if added[i].id !in notifications {
          notifications := notifications[added[i].id := added[i].(revision := 0)];
        }
        i := i + 1;
        assert added[..i][..i - 1] == added[..i - 1];
      }
      assert added[..i] == added;
    }

    method ClaimDuePeerNotifications(now: int, leaseUntil: int, limit: int) returns (taken: seq<Notification>)
      requires Valid()
      modifies this`notifications
      ensures Valid() && Contents() == old(Contents()).(notifications := notifications)
      ensures TakesDue(old(notifications), digest, now, leaseUntil, limit, notifications, taken)
    {
      taken := TakeDue(now, leaseUntil, limit);
      hide TakesDue, KeyedNotifications, Injective;
    }

    method TakeDue(now: int, leaseUntil: int, limit: int) returns (taken: seq<Notification>)
      requires KeyedNotifications(notifications) && Injective(digest)
      modifies this`notifications
      ensures KeyedNotifications(notifications)
      ensures TakesDue(old(notifications), digest, now, leaseUntil, limit, notifications, taken)
    {
      ghost var before := notifications;
      taken := [];
      var due := set id | id in notifications && NotificationDue(notifications[id], now);
      assert TakenSoFar(before, digest, now, leaseUntil, due, notifications, taken);
      hide TakenSoFar, TakesDue, NotificationDue, Injective;
      while due != {} && |taken| < limit
        invariant KeyedNotifications(notifications) && |taken| <= (if limit > 0 then limit else 0)
        invariant notifications.Keys == before.Keys && due <= before.Keys
        invariant TakenSoFar(before, digest, now, leaseUntil, due, notifications, taken)
      {
        var id := SmallestDigest(due);
        TakeNext(before, digest, now, leaseUntil, due, notifications, taken, id);
        var n := ClaimedNotification(notifications[id], leaseUntil);
        due := due - {id};
        notifications := notifications[id := n];
        taken := taken + [n];
      }
      TakesDone(before, digest, now, leaseUntil, limit, due, notifications, taken);
    }

    method SmallestDigest(ids: set<NotificationId>) returns (least: NotificationId)
      requires ids != {} && Injective(digest)
      ensures least in ids && forall id :: id in ids && id != least ==> digest(least) < digest(id)
    {
      least :| least in ids;
      var remaining := ids - {least};
      while remaining != {}
        invariant remaining <= ids && least in ids
        invariant forall id :: id in ids && id !in remaining && id != least ==> digest(least) < digest(id)
      {
        var id :| id in remaining;
        remaining := remaining - {id};
        assert digest(id) != digest(least) || id == least;
        if digest(id) < digest(least) {
          least := id;
        }
      }
    }

    method UpdatePeerNotification(n: Notification, expected: int) returns (r: Outcome)
      requires Valid()
      modifies this
      ensures Valid() && (Contents(), r) == UpdateNotification(old(Contents()), n, expected)
    {
      if n.id !in notifications {
        return NotFound;
      }
      if notifications[n.id].revision != expected {
        return VersionConflict;
      }
      notifications := notifications[n.id := n.(revision := expected + 1, leaseUntil := None)];
      return Done;
    }
  }
}
