/** The aircraft, flight, mission and intent fences that outstanding deployments and active flights keep. */
module FleetFences {
  import opened Domain
  import opened StoreState

  type Fleet = map<Id, Aircraft>

  ghost predicate Fences(d: Data, fleet: Fleet) {
    && MissionsBound(d)
    && DeploymentsBound(d, fleet)
    && OutstandingOpen(d)
    && OneOutstanding(d)
    && OneFlying(d)
    && FlyingNotHeld(d)
    && FlyingServed(d)
  }

  ghost predicate MissionsBound(d: Data) {
    forall m :: m in d.missions ==>
      d.missions[m].flight in d.flights && MissionFits(d.missions[m], d.flights[d.missions[m].flight])
  }

  ghost predicate DeploymentsBound(d: Data, fleet: Fleet) {
    forall id :: id in d.deployments ==> CommandBound(d, fleet, d.deployments[id].command)
  }

  /** A command names an existing flight, one of its missions, and the aircraft's own agent and operator. */
  ghost predicate CommandBound(d: Data, fleet: Fleet, c: Command) {
    && c.flight in d.flights && CommandFits(c, d.flights[c.flight])
    && c.mission in d.missions && NamesMission(c, d.missions[c.mission])
    && c.request == DeployRequest(c.flight, c.mission, c.missionVersion, c.digest)
    && c.aircraft in fleet && fleet[c.aircraft].agent == c.agent && fleet[c.aircraft].operator == c.operator
    && c.agent != NO_ID
  }

  predicate NamesMission(c: Command, m: Mission) {
    m.flight == c.flight && m.version == c.missionVersion && m.digest == c.digest
  }

  /** While a deployment is outstanding its flight is planned, its mission is current, and its intent version is
      the newest and still accepted or active. */
  ghost predicate OutstandingOpen(d: Data) {
    forall id :: id in d.deployments && Outstanding(d.deployments[id].status) ==> OpenFor(d, d.deployments[id].command)
  }

  ghost predicate OpenFor(d: Data, c: Command) {
    && c.flight in d.flights && d.flights[c.flight].status.Planned?
    && MissionIsCurrent(d, c.flight, c.mission, c.digest)
    && FlightBindingCurrent(d, d.flights[c.flight])
  }

  ghost predicate OneOutstanding(d: Data) {
    forall a, b :: a in d.deployments && b in d.deployments && BothHold(d.deployments[a], d.deployments[b]) ==> a == b
  }

  predicate BothHold(a: Deployment, b: Deployment) {
    a.command.aircraft == b.command.aircraft && Outstanding(a.status) && Outstanding(b.status)
  }

  ghost predicate OneFlying(d: Data) {
    forall f, g :: f in d.flights && g in d.flights && BothFlying(d.flights[f], d.flights[g]) ==> f == g
  }

  predicate BothFlying(f: Flight, g: Flight) {
    f.aircraft == g.aircraft && f.status.Flying? && g.status.Flying?
  }

  ghost predicate FlyingNotHeld(d: Data) {
    forall f, id :: f in d.flights && id in d.deployments && Grounds(d.flights[f], d.deployments[id]) ==> false
  }

  /** An active flight and an outstanding deployment of the same aircraft. */
  predicate Grounds(f: Flight, dep: Deployment) {
    f.aircraft == dep.command.aircraft && f.status.Flying? && Outstanding(dep.status)
  }

  /** An active flight's aircraft last received a verified deployment of that flight's current mission. */
  ghost predicate FlyingServed(d: Data) {
    forall f :: f in d.flights && d.flights[f].status.Flying? ==> ServedByNewest(d, f)
  }

  ghost predicate ServedByNewest(d: Data, f: Id)
    requires f in d.flights
  {
    exists id :: IsNewest(d, id, d.flights[f].aircraft) && ServesFlight(d, id, f)
  }

  /* ---- the steps that keep the fences ---- */

  /** Intents that no outstanding deployment fences may change; fenced ones keep every version and gain none. */
  ghost predicate FencedIntentsKept(d: Data, after: map<IntentKey, Intent>) {
    forall k :: k in after + d.intents && IntentFenced(d, k.0) ==>
      k in d.intents && k in after && after[k] == d.intents[k]
  }

  lemma IntentChangeKeepsFences(d: Data, after: Data, fleet: Fleet)
    requires Fences(d, fleet) && FencedIntentsKept(d, after.intents)
    requires after == d.(intents := after.intents, volumes := after.volumes, publications := after.publications,
                         notifications := after.notifications)
    ensures Fences(after, fleet)
  {
    IntentChangeKeepsOpen(d, after) by { hide FlyingServed; }
    IntentChangeKeepsServed(d, after) by { hide OutstandingOpen, FencedIntentsKept; }
    hide OutstandingOpen, FlyingServed, FencedIntentsKept;
  }

  lemma IntentChangeKeepsOpen(d: Data, after: Data)
    requires OutstandingOpen(d) && FencedIntentsKept(d, after.intents)
    requires after == d.(intents := after.intents, volumes := after.volumes, publications := after.publications,
                         notifications := after.notifications)
    ensures OutstandingOpen(after)
  {
    forall id | id in d.deployments && Outstanding(d.deployments[id].status)
      ensures OpenFor(after, d.deployments[id].command)
    {
      var c := d.deployments[id].command;
      assert FlightFenced(d, c.flight);
      assert IntentFenced(d, d.flights[c.flight].intent);
    }
  }

  lemma IntentChangeKeepsServed(d: Data, after: Data)
    requires FlyingServed(d) && after.flights == d.flights && after.deployments == d.deployments
    requires after.missions == d.missions
    requires after.creationOrder == d.creationOrder
    ensures FlyingServed(after)
  {
    forall f | f in d.flights && d.flights[f].status.Flying?
      ensures ServedByNewest(after, f)
    {
      assert ServedByNewest(d, f);
      var id :| IsNewest(d, id, d.flights[f].aircraft) && ServesFlight(d, id, f);
      assert IsNewest(after, id, d.flights[f].aircraft) && ServesFlight(after, id, f);
    }
  }

  /** Any change that leaves a served flight's aircraft alone keeps it served. */
  ghost predicate KeepsServed(d: Data, after: Data, f: Id)
    requires f in d.flights && f in after.flights
  {
    forall id :: IsNewest(d, id, d.flights[f].aircraft) && ServesFlight(d, id, f) ==>
      IsNewest(after, id, after.flights[f].aircraft) && ServesFlight(after, id, f)
  }

  lemma ServedKept(d: Data, after: Data, f: Id)
    requires f in d.flights && f in after.flights && ServedByNewest(d, f) && KeepsServed(d, after, f)
    ensures ServedByNewest(after, f)
  {
    var id :| IsNewest(d, id, d.flights[f].aircraft) && ServesFlight(d, id, f);
    assert IsNewest(after, id, after.flights[f].aircraft) && ServesFlight(after, id, f);
  }

  lemma FlightCreatedKeepsFences(d: Data, flight: Flight, fleet: Fleet)
    requires Fences(d, fleet) && flight.id !in d.flights && flight.status.Planned?
    ensures Fences(d.(flights := d.flights[flight.id := flight]), fleet)
  {
    hide OutstandingOpen, FlyingServed;
    FlightCreatedKeepsOpen(d, flight);
    FlightCreatedKeepsServed(d, flight, fleet);
  }

  lemma FlightCreatedKeepsOpen(d: Data, flight: Flight)
    requires OutstandingOpen(d) && flight.id !in d.flights
    ensures OutstandingOpen(d.(flights := d.flights[flight.id := flight]))
  {
    var after := d.(flights := d.flights[flight.id := flight]);
    forall id | id in d.deployments && Outstanding(d.deployments[id].status)
      ensures OpenFor(after, d.deployments[id].command)
    {
      assert OpenFor(d, d.deployments[id].command);
    }
  }

  lemma FlightCreatedKeepsServed(d: Data, flight: Flight, fleet: Fleet)
    requires FlyingServed(d) && DeploymentsBound(d, fleet) && flight.id !in d.flights && flight.status.Planned?
    ensures FlyingServed(d.(flights := d.flights[flight.id := flight]))
  {
    var after := d.(flights := d.flights[flight.id := flight]);
    forall f | f in after.flights && after.flights[f].status.Flying?
      ensures ServedByNewest(after, f)
    {
      ServedKept(d, after, f);
    }
  }

  lemma MissionAddedKeepsFences(d: Data, mission: Mission, fleet: Fleet)
    requires Fences(d, fleet) && mission.id !in d.missions && mission.flight in d.flights
    requires d.flights[mission.flight].status.Planned? && MissionFits(mission, d.flights[mission.flight])
    requires !FlightFenced(d, mission.flight)
    ensures Fences(AddMission(d, mission), fleet)
  {
    MissionAddedKeepsOpen(d, mission);
    MissionAddedKeepsServed(d, mission);
    hide OutstandingOpen, FlyingServed, FlightFenced;
  }

  lemma MissionAddedKeepsOpen(d: Data, mission: Mission)
    requires OutstandingOpen(d) && mission.id !in d.missions && !FlightFenced(d, mission.flight)
    ensures OutstandingOpen(AddMission(d, mission))
  {
    var after := AddMission(d, mission);
    forall id | id in d.deployments && Outstanding(d.deployments[id].status)
      ensures OpenFor(after, d.deployments[id].command)
    {
      var c := d.deployments[id].command;
      assert c.flight != mission.flight;
      assert OpenFor(d, c);
    }
  }

  lemma MissionAddedKeepsServed(d: Data, mission: Mission)
    requires FlyingServed(d) && mission.id !in d.missions && mission.flight in d.flights
    requires d.flights[mission.flight].status.Planned?
    ensures FlyingServed(AddMission(d, mission))
  {
    var after := AddMission(d, mission);
    forall f | f in after.flights && after.flights[f].status.Flying?
      ensures ServedByNewest(after, f)
    {
      ServedKept(d, after, f);
    }
  }

  lemma DeploymentAddedKeepsFences(d: Data, dep: Deployment, fleet: Fleet)
    requires Fences(d, fleet) && Keyed(d)
    requires dep.command.deployment !in d.deployments && CommandBound(d, fleet, dep.command)
    requires d.flights[dep.command.flight].status.Planned?
    requires !AdmissionBlocked(d, dep.command, d.flights[dep.command.flight], None)
    ensures Fences(AddDeployment(d, dep), fleet)
  {
    hide OutstandingOpen, FlyingServed, AdmissionBlocked, Keyed;
    KeyedOrderCovers(d);
    AircraftFree(d, dep, fleet);
    DeploymentAddedKeepsOpen(d, dep);
    DeploymentAddedKeepsServed(d, dep);
  }

  lemma KeyedOrderCovers(d: Data)
    requires Keyed(d)
    ensures d.creationOrder.Keys == d.deployments.Keys
  {
  }

  /** An admitted deployment finds its aircraft neither flying nor held. */
  lemma AircraftFree(d: Data, dep: Deployment, fleet: Fleet)
    requires OutstandingOpen(d) && DeploymentsBound(d, fleet) && CommandBound(d, fleet, dep.command)
    requires !AdmissionBlocked(d, dep.command, d.flights[dep.command.flight], None)
    ensures forall id :: id in d.deployments && Outstanding(d.deployments[id].status) ==>
      d.deployments[id].command.aircraft != dep.command.aircraft
    ensures forall f :: f in d.flights && d.flights[f].status.Flying? ==> d.flights[f].aircraft != dep.command.aircraft
  {
    forall id | id in d.deployments && Outstanding(d.deployments[id].status)
      ensures d.deployments[id].command.aircraft != dep.command.aircraft
    {
      assert OpenFor(d, d.deployments[id].command);
      assert HoldsAircraft(d, id, d.deployments[id].command.aircraft);
    }
  }

  lemma DeploymentAddedKeepsOpen(d: Data, dep: Deployment)
    requires OutstandingOpen(d) && Keyed(d) && dep.command.deployment !in d.deployments
    requires dep.command.flight in d.flights && d.flights[dep.command.flight].status.Planned?
    requires !AdmissionBlocked(d, dep.command, d.flights[dep.command.flight], None)
    ensures OutstandingOpen(AddDeployment(d, dep))
  {
    var after := AddDeployment(d, dep);
    forall id | id in after.deployments && Outstanding(after.deployments[id].status)
      ensures OpenFor(after, after.deployments[id].command)
    {
      assert OpenFor(d, after.deployments[id].command);
    }
  }

  lemma DeploymentAddedKeepsServed(d: Data, dep: Deployment)
    requires FlyingServed(d) && dep.command.deployment !in d.deployments && dep.command.deployment !in d.creationOrder
    requires dep.command.flight in d.flights && d.flights[dep.command.flight].aircraft == dep.command.aircraft
    requires forall f :: f in d.flights && d.flights[f].status.Flying? ==> d.flights[f].aircraft != dep.command.aircraft
    ensures FlyingServed(AddDeployment(d, dep))
  {
    var after := AddDeployment(d, dep);
    forall f | f in after.flights && after.flights[f].status.Flying?
      ensures ServedByNewest(after, f)
    {
      ServedKept(d, after, f);
    }
  }

  lemma FlightStartedKeepsFences(d: Data, started: Flight, fleet: Fleet)
    requires Fences(d, fleet) && KeyedFlights(d.flights) && started.id in d.flights
    requires d.flights[started.id].status.Planned?
    requires started == d.flights[started.id].(status := Flying, startedAt := started.startedAt)
    requires MayStart(d, d.flights[started.id])
    ensures Fences(d.(flights := d.flights[started.id := started]), fleet)
  {
    NotHeldAtStart(d, started, fleet);
    FlightStartedKeepsOpen(d, started, fleet);
    FlightStartedKeepsServed(d, started);
    hide OutstandingOpen, FlyingServed;
  }

  lemma NotHeldAtStart(d: Data, started: Flight, fleet: Fleet)
    requires OutstandingOpen(d) && DeploymentsBound(d, fleet)
    requires forall id :: !HoldsAircraft(d, id, started.aircraft)
    ensures forall id :: id in d.deployments && Outstanding(d.deployments[id].status) ==>
      d.deployments[id].command.aircraft != started.aircraft
  {
    forall id | id in d.deployments && Outstanding(d.deployments[id].status)
      ensures d.deployments[id].command.aircraft != started.aircraft
    {
      assert OpenFor(d, d.deployments[id].command);
      assert HoldsAircraft(d, id, d.deployments[id].command.aircraft);
    }
  }

  lemma FlightStartedKeepsOpen(d: Data, started: Flight, fleet: Fleet)
    requires OutstandingOpen(d) && DeploymentsBound(d, fleet) && started.id in d.flights
    requires started.aircraft == d.flights[started.id].aircraft
    requires forall id :: id in d.deployments && Outstanding(d.deployments[id].status) ==>
      d.deployments[id].command.aircraft != started.aircraft
    ensures OutstandingOpen(d.(flights := d.flights[started.id := started]))
  {
    var after := d.(flights := d.flights[started.id := started]);
    forall id | id in d.deployments && Outstanding(d.deployments[id].status)
      ensures OpenFor(after, d.deployments[id].command)
    {
      assert OpenFor(d, d.deployments[id].command);
    }
  }

  lemma FlightStartedKeepsServed(d: Data, started: Flight)
    requires FlyingServed(d) && KeyedFlights(d.flights) && started.id in d.flights
    requires started == d.flights[started.id].(status := Flying, startedAt := started.startedAt)
    requires MayStart(d, d.flights[started.id])
    ensures FlyingServed(d.(flights := d.flights[started.id := started]))
  {
    var after := d.(flights := d.flights[started.id := started]);
    var newest :| IsNewest(d, newest, started.aircraft) && ServesFlight(d, newest, started.id);
    assert IsNewest(after, newest, started.aircraft) && ServesFlight(after, newest, started.id);
    forall f | f in after.flights && after.flights[f].status.Flying? && f != started.id
      ensures ServedByNewest(after, f)
    {
      ServedKept(d, after, f);
    }
  }

  lemma DeploymentWrittenKeepsFences(d: Data, id: Id, written: Deployment, fleet: Fleet)
    requires Fences(d, fleet) && id in d.deployments && Outstanding(d.deployments[id].status)
    requires written.command == d.deployments[id].command
    ensures Fences(d.(deployments := d.deployments[id := written]), fleet)
  {
    DeploymentWrittenKeepsOpen(d, id, written);
    DeploymentWrittenKeepsServed(d, id, written);
    hide OutstandingOpen, FlyingServed;
  }

  lemma DeploymentWrittenKeepsOpen(d: Data, id: Id, written: Deployment)
    requires OutstandingOpen(d) && id in d.deployments && Outstanding(d.deployments[id].status)
    requires written.command == d.deployments[id].command
    ensures OutstandingOpen(d.(deployments := d.deployments[id := written]))
  {
    var after := d.(deployments := d.deployments[id := written]);
    forall other | other in after.deployments && Outstanding(after.deployments[other].status)
      ensures OpenFor(after, after.deployments[other].command)
    {
      assert OpenFor(d, d.deployments[other].command);
    }
  }

  lemma DeploymentWrittenKeepsServed(d: Data, id: Id, written: Deployment)
    requires FlyingServed(d) && id in d.deployments && Outstanding(d.deployments[id].status)
    requires written.command == d.deployments[id].command
    ensures FlyingServed(d.(deployments := d.deployments[id := written]))
  {
    var after := d.(deployments := d.deployments[id := written]);
    forall f | f in after.flights && after.flights[f].status.Flying?
      ensures ServedByNewest(after, f)
    {
      ServedKept(d, after, f);
    }
  }

  /* ---- what the fences give a caller ---- */

  /** validateMissionDeploymentBinding accepts these records for the flight. */
  ghost predicate BindingAccepted(d: Data, fleet: Fleet, flight: Id, mission: Mission) {
    && flight in d.flights && d.flights[flight].status.Planned?
    && IsCurrentMission(d, mission.id) && d.missions[mission.id] == mission && MissionFits(mission, d.flights[flight])
    && FlightBindingCurrent(d, d.flights[flight])
    && d.flights[flight].aircraft in fleet
    && fleet[d.flights[flight].aircraft].agent != NO_ID
    && fleet[d.flights[flight].aircraft].operator == mission.operator
  }

  /** Reconciling an outstanding deployment meets its own flight, mission, intent and aircraft binding, never a
      stale one, whichever mission is read as current. */
  lemma ReconcileNeverStale(d: Data, fleet: Fleet, id: Id, mission: Mission)
    requires Keyed(d) && Fences(d, fleet) && id in d.deployments && Outstanding(d.deployments[id].status)
    requires IsCurrentMission(d, mission.id) && d.missions[mission.id] == mission
    requires mission.flight == d.deployments[id].command.flight
    ensures var c := d.deployments[id].command;
      && BindingAccepted(d, fleet, c.flight, mission)
      && mission.id == c.mission && mission.version == c.missionVersion && mission.digest == c.digest
      && fleet[c.aircraft].agent == c.agent
  {
    var c := d.deployments[id].command;
    assert OpenFor(d, c);
    CurrentMissionUnique(d, mission.id, c.mission);
  }

  lemma CurrentMissionUnique(d: Data, a: Id, b: Id)
    requires KeyedMissions(d.missions, d.missionByKey) && IsCurrentMission(d, a) && IsCurrentMission(d, b)
    requires d.missions[a].flight == d.missions[b].flight
    ensures a == b
  {
    assert SameSlot(d.missions[a], d.missions[b]);
  }

  /** A request for the same binding as `c`: only the identities drawn for this call differ. */
  predicate SameBinding(c: Command, w: Command) {
    && w.operator == c.operator && w.flight == c.flight && w.aircraft == c.aircraft && w.intent == c.intent
    && w.intentVersion == c.intentVersion && w.mission == c.mission && w.digest == c.digest && w.request == c.request
  }

  lemma OwnCommandNotBlocked(d: Data, fleet: Fleet, id: Id, w: Command)
    requires Fences(d, fleet) && KeyedFlights(d.flights) && id in d.deployments && Outstanding(d.deployments[id].status)
    requires SameBinding(d.deployments[id].command, w)
    ensures w.flight in d.flights && d.flights[w.flight].status.Planned? && d.flights[w.flight].aircraft == w.aircraft
    ensures !NoIntent(d, d.flights[w.flight].intent)
    ensures !AdmissionBlocked(d, w, d.flights[w.flight], Some(id))
  {
    var c := d.deployments[id].command;
    assert OpenFor(d, c);
    forall other | HoldsAircraft(d, other, c.aircraft)
      ensures other == id
    {
      assert BothHold(d.deployments[other], d.deployments[id]);
    }
    forall f | f in d.flights && d.flights[f].aircraft == c.aircraft
      ensures !d.flights[f].status.Flying?
    {
      assert !Grounds(d.flights[f], d.deployments[id]);
    }
  }

  /** Its admission finds the original record again instead of being refused. */
  lemma ReconcileReplays(d: Data, fleet: Fleet, id: Id, wanted: Deployment)
    requires Keyed(d) && Fences(d, fleet) && id in d.deployments && Outstanding(d.deployments[id].status)
    requires wanted.command.key in d.deploymentByKey && d.deploymentByKey[wanted.command.key] == id
    requires SameBinding(d.deployments[id].command, wanted.command)
    ensures CreateDeployment(d, wanted) == (d, DeploymentOk(d.deployments[id]))
  {
    OwnCommandNotBlocked(d, fleet, id, wanted.command);
    assert d.deployments[id].command.deployment == id;
    hide Fences, Keyed, AdmissionBlocked, NoIntent;
  }

  /** The mission an active flight was verified for is found, and never two flights. */
  lemma ActiveFlightHasMission(d: Data, fleet: Fleet, f: Id)
    requires Keyed(d) && Fences(d, fleet) && f in d.flights && d.flights[f].status.Flying?
    ensures OneFliesServed(d, d.flights[f].aircraft, d.flights[f].intent, d.flights[f].intentVersion)
    ensures forall g :: FliesBinding(d, g, d.flights[f].aircraft, d.flights[f].intent, d.flights[f].intentVersion) ==>
      g == f
  {
    var flight := d.flights[f];
    forall g | FliesBinding(d, g, flight.aircraft, flight.intent, flight.intentVersion)
      ensures g == f
    {
      assert BothFlying(d.flights[f], d.flights[g]);
    }
    assert ServedByNewest(d, f);
    var id :| IsNewest(d, id, flight.aircraft) && ServesFlight(d, id, f);
    assert FliesBinding(d, f, flight.aircraft, flight.intent, flight.intentVersion) && ServesFlight(d, id, f);
  }
}
