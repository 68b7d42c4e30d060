/** Under every interleaving of PostgreSQL transactions the locks keep what each one has read true until it commits,
    so each commit does what the atomic store operation would do at that moment, and the fences hold. */
module PostgresFences {
  import opened Domain
  import opened StoreState
  import opened FleetFences
  import opened PostgresTransactions
  import L = IntentLifecycle
  import opened DeploymentCalls
  import O = Operations

  /* ---- what a committed change may touch ---- */

  /** A change of the committed data allowed to a holder of `locks`. */
  ghost predicate Effect(d: Data, d': Data, locks: set<Lock>, fleet: Fleet) {
    && FlightEffect(d, d', locks)
    && MissionEffect(d, d', locks)
    && DeploymentEffect(d, d', locks, fleet)
    && IntentEffect(d, d', locks)
  }

  ghost predicate FlightEffect(d: Data, d': Data, locks: set<Lock>) {
    && (forall f :: f in d.flights ==> f in d'.flights && FlightEvolves(d.flights[f], d'.flights[f]))
    && (forall f :: f in d.flights && d'.flights[f] != d.flights[f] ==>
          FlightRow(f) in locks && AircraftLifecycle(d.flights[f].aircraft) in locks)
    && (forall f :: f in d'.flights && f !in d.flights ==> d'.flights[f].status.Planned?)
  }

  ghost predicate MissionEffect(d: Data, d': Data, locks: set<Lock>) {
    && (forall m :: m in d.missions ==> m in d'.missions && d'.missions[m] == d.missions[m])
    && (forall m :: m in d'.missions && m !in d.missions ==> FlightRow(d'.missions[m].flight) in locks)
    && (forall key :: key in d'.missionByKey && key !in d.missionByKey ==> Key(MISSION_KEYS, key) in locks)
  }

  ghost predicate DeploymentEffect(d: Data, d': Data, locks: set<Lock>, fleet: Fleet) {
    && (forall id :: id in d.deployments ==>
       id in d'.deployments && RecordEvolves(d.deployments[id], d'.deployments[id]))
    && (forall id :: id in d'.deployments && id !in d.deployments ==>
          AdmittedUnder(d, d'.deployments[id].command, locks, fleet) && id !in d.creationOrder)
    && (forall key :: key in d.deploymentByKey ==>
       key in d'.deploymentByKey && d'.deploymentByKey[key] == d.deploymentByKey[key])
    && (forall key :: key in d'.deploymentByKey && key !in d.deploymentByKey ==> Key(DEPLOYMENT_KEYS, key) in locks)
    && (forall id :: id in d.creationOrder ==> id in d'.creationOrder && d'.creationOrder[id] == d.creationOrder[id])
    && d'.creationOrder.Keys == d'.deployments.Keys
  }

  ghost predicate AdmittedUnder(d: Data, c: Command, locks: set<Lock>, fleet: Fleet) {
    CommandBound(d, fleet, c) && FlightRow(c.flight) in locks && AircraftLifecycle(c.aircraft) in locks &&
    IntentLock(c.intent) in locks
  }

  ghost predicate IntentEffect(d: Data, d': Data, locks: set<Lock>) {
    && (forall k :: k in d.intents + d'.intents && IntentLock(k.0) !in locks ==>
       k in d.intents && k in d'.intents && d'.intents[k] == d.intents[k])
    && (forall k ::
       k in d'.intents && d'.intents[k].status.Active? && (k !in d.intents || d.intents[k] != d'.intents[k]) ==>
          AircraftActivation(d'.intents[k].aircraft) in locks)
  }

  /* ---- what an open transaction relies on ---- */

  ghost predicate Facts(d: Data, fleet: Fleet, t: Tx) {
    match t
    case DeployTx(x) => DeployFacts(d, fleet, x)
    case StartTx(x) => StartFacts(d, x)
    case ImportTx(x) => ImportFacts(d, x)
    case EditTx(x) => EditFacts(d, x)
  }

  ghost predicate RowRead(d: Data, id: Id, row: Flight) {
    id in d.flights && d.flights[id] == row && row.status.Planned?
  }

  /** The outstanding record of the request, as read under the lock of its key; its status may have moved on since. */
  ghost predicate ReplayRead(d: Data, c: Command, rec: Deployment) {
    && Tracked(d, rec) && rec.command.request == c.request
    && c.key in d.deploymentByKey && d.deploymentByKey[c.key] == rec.command.deployment
  }

  ghost predicate DeployFacts(d: Data, fleet: Fleet, x: Deploying) {
    var c := x.dep.command;
    && CommandBound(d, fleet, c) && x.at <= 10
    && (x.at >= 2 && x.replay.None? ==> c.key !in d.deploymentByKey)
    && (x.at >= 2 && x.replay.Some? ==> ReplayRead(d, c, x.replay.value))
    && (x.at >= 3 ==> RowRead(d, c.flight, x.row) && CommandFits(c, x.row))
    && (x.at >= 6 ==> FlightBindingCurrent(d, x.row))
    && (x.at >= 7 ==> !AircraftFlying(d, x.row.aircraft))
    && (x.at >= 8 ==> MissionIsCurrent(d, c.flight, c.mission, c.digest))
    && (x.at >= 9 ==> NoneHolds(d, x.row.aircraft, ReplayId(x.replay)))
    && (x.at >= 10 ==> x.replay.None?)
  }

  ghost predicate StartFacts(d: Data, x: Starting) {
    && x.flight.status.Flying? && x.at <= 8
    && x.flight.id in d.flights && SameRow(x.flight, d.flights[x.flight.id])
    && (x.at >= 1 ==> RowRead(d, x.flight.id, x.row))
    && (x.at >= 3 ==> NoOtherFlying(d, x.row))
    && (x.at >= 5 ==> TopActive(d, x.row))
    && (x.at >= 6 ==> MissionIsCurrent(d, x.flight.id, x.mission, x.digest))
    && (x.at >= 7 ==> NoneHolds(d, x.row.aircraft, None))
    && (x.at >= 8 ==> NewestServes(d, x.row.aircraft, x.flight.id, x.mission, x.digest))
  }

  ghost predicate ImportFacts(d: Data, x: Importing) {
    var m := x.draft;
    && x.at <= 8
    && (x.at >= 2 ==> m.key !in d.missionByKey)
    && (x.at >= 3 ==> RowRead(d, m.flight, x.row) && MissionFits(m, x.row))
    && (x.at >= 5 ==> FlightBindingCurrent(d, x.row))
    && (x.at >= 6 ==> !FlightFenced(d, m.flight))
    && (x.at >= 8 ==> IsNextVersion(d, m.flight, x.version))
  }

  ghost predicate EditFacts(d: Data, x: Editing) {
    && ValidEdit(x.edit) && x.at <= 5
    && (x.at >= 3 && x.edit.ActivateEdit? ==> !OtherActive(d, x.edit.intent))
    && (x.at >= 4 ==> !IntentFenced(d, EditId(x.edit)))
    && (x.at >= 5 ==> EditGuard(d, x.edit))
  }

  /* ---- the locks protect the facts ---- */

  lemma RowKept(d: Data, d': Data, locks: set<Lock>, id: Id, row: Flight)
    requires FlightEffect(d, d', locks) && RowRead(d, id, row) && FlightRow(id) !in locks
    ensures RowRead(d', id, row)
  {
  }

  lemma BindingKept(d: Data, d': Data, locks: set<Lock>, row: Flight)
    requires IntentEffect(d, d', locks) && IntentLock(row.intent) !in locks
    ensures FlightBindingCurrent(d, row) ==> FlightBindingCurrent(d', row)
    ensures TopActive(d, row) ==> TopActive(d', row)
  {
    assert forall v :: (row.intent, v) in d'.intents ==> (row.intent, v) in d.intents + d'.intents;
  }

  lemma FlyingKept(d: Data, d': Data, locks: set<Lock>, aircraft: Id)
    requires FlightEffect(d, d', locks) && AircraftLifecycle(aircraft) !in locks
    ensures AircraftFlying(d', aircraft) ==> AircraftFlying(d, aircraft)
  {
  }

  lemma OtherFlyingKept(d: Data, d': Data, locks: set<Lock>, row: Flight)
    requires FlightEffect(d, d', locks) && AircraftLifecycle(row.aircraft) !in locks && NoOtherFlying(d, row)
    ensures NoOtherFlying(d', row)
  {
  }

  lemma MissionKept(d: Data, d': Data, locks: set<Lock>, flight: Id, mission: Id, digest: Id)
    requires MissionEffect(d, d', locks) && FlightRow(flight) !in locks && MissionIsCurrent(d, flight, mission, digest)
    ensures MissionIsCurrent(d', flight, mission, digest)
  {
  }

  lemma VersionKept(d: Data, d': Data, locks: set<Lock>, flight: Id, version: int)
    requires MissionEffect(d, d', locks) && FlightRow(flight) !in locks && IsNextVersion(d, flight, version)
    ensures IsNextVersion(d', flight, version)
  {
  }

  lemma HoldsKept(d: Data, d': Data, locks: set<Lock>, fleet: Fleet, id: Id, aircraft: Id)
    requires FlightEffect(d, d', locks) && DeploymentEffect(d, d', locks, fleet) && DeploymentsBound(d, fleet)
    requires AircraftLifecycle(aircraft) !in locks && HoldsAircraft(d', id, aircraft)
    ensures HoldsAircraft(d, id, aircraft)
  {
    if id in d.deployments {
      assert CommandBound(d, fleet, d.deployments[id].command);
      assert RecordEvolves(d.deployments[id], d'.deployments[id]);
    }
  }

  lemma NoneHoldsKept(d: Data, d': Data, locks: set<Lock>, fleet: Fleet, aircraft: Id, replay: Option<Id>)
    requires FlightEffect(d, d', locks) && DeploymentEffect(d, d', locks, fleet) && DeploymentsBound(d, fleet)
    requires AircraftLifecycle(aircraft) !in locks && NoneHolds(d, aircraft, replay)
    ensures NoneHolds(d', aircraft, replay)
  {
    forall id | HoldsAircraft(d', id, aircraft) ensures replay.Some? && id == replay.value {
      HoldsKept(d, d', locks, fleet, id, aircraft);
    }
  }

  lemma FenceKept(d: Data, d': Data, locks: set<Lock>, fleet: Fleet, flight: Id)
    requires DeploymentEffect(d, d', locks, fleet) && FlightRow(flight) !in locks
    ensures FlightFenced(d', flight) ==> FlightFenced(d, flight)
  {
    if FlightFenced(d', flight) {
      var id :| id in d'.deployments && d'.deployments[id].command.flight == flight &&
          Outstanding(d'.deployments[id].status);
      assert id !in d.deployments ==> AdmittedUnder(d, d'.deployments[id].command, locks, fleet);
      assert id in d.deployments && RecordEvolves(d.deployments[id], d'.deployments[id]);
    }
  }

  lemma IntentFenceKept(d: Data, d': Data, locks: set<Lock>, fleet: Fleet, intent: Id)
    requires FlightEffect(d, d', locks) && DeploymentEffect(d, d', locks, fleet) && DeploymentsBound(d, fleet)
    requires IntentLock(intent) !in locks && IntentFenced(d', intent)
    ensures IntentFenced(d, intent)
  {
    var f :| f in d'.flights && d'.flights[f].intent == intent && FlightFenced(d', f);
    var id :| id in d'.deployments && d'.deployments[id].command.flight == f && Outstanding(d'.deployments[id].status);
    if id in d.deployments {
      assert RecordEvolves(d.deployments[id], d'.deployments[id]);
      assert CommandBound(d, fleet, d.deployments[id].command);
      assert FlightFenced(d, f);
    }
  }

  lemma NewestKept(d: Data, d': Data, locks: set<Lock>, fleet: Fleet, id: Id, aircraft: Id)
    requires FlightEffect(d, d', locks) && DeploymentEffect(d, d', locks, fleet) && DeploymentsBound(d, fleet)
    requires AircraftLifecycle(aircraft) !in locks && IsNewest(d, id, aircraft)
    requires d.creationOrder.Keys == d.deployments.Keys
    ensures IsNewest(d', id, aircraft)
  {
    assert RecordEvolves(d.deployments[id], d'.deployments[id]);
    forall other | OnAircraft(d', other, aircraft) ensures OnAircraft(d, other, aircraft) {
      if other in d.deployments {
        assert RecordEvolves(d.deployments[other], d'.deployments[other]);
        assert CommandBound(d, fleet, d.deployments[other].command);
      }
    }
  }

  lemma NewestServesKept(d: Data, d': Data, locks: set<Lock>, fleet: Fleet, aircraft: Id, flight: Id, mission: Id,
                         digest: Id)
    requires FlightEffect(d, d', locks) && DeploymentEffect(d, d', locks, fleet) && DeploymentsBound(d, fleet)
    requires AircraftLifecycle(aircraft) !in locks && NewestServes(d, aircraft, flight, mission, digest)
    requires d.creationOrder.Keys == d.deployments.Keys
    ensures NewestServes(d', aircraft, flight, mission, digest)
  {
    var id :| IsNewest(d, id, aircraft) && d.deployments[id].command.flight == flight &&
        d.deployments[id].command.mission == mission &&
              d.deployments[id].command.digest == digest && Verified(d.deployments[id].status);
    NewestKept(d, d', locks, fleet, id, aircraft);
    VerifiedKept(d, d', locks, fleet, id);
    hide FlightEffect, DeploymentEffect, DeploymentsBound;
  }

  lemma VerifiedKept(d: Data, d': Data, locks: set<Lock>, fleet: Fleet, id: Id)
    requires DeploymentEffect(d, d', locks, fleet) && id in d.deployments && Verified(d.deployments[id].status)
    ensures id in d'.deployments && d'.deployments[id] == d.deployments[id]
  {
    assert RecordEvolves(d.deployments[id], d'.deployments[id]);
    hide AdmittedUnder;
  }

  lemma ActiveKept(d: Data, d': Data, locks: set<Lock>, intent: Intent)
    requires IntentEffect(d, d', locks) && AircraftActivation(intent.aircraft) !in locks && !OtherActive(d, intent)
    ensures !OtherActive(d', intent)
  {
  }

  lemma GuardKept(d: Data, d': Data, locks: set<Lock>, e: Edit)
    requires IntentEffect(d, d', locks) && IntentLock(EditId(e)) !in locks && EditGuard(d, e)
    ensures EditGuard(d', e)
  {
    assert forall v :: (EditId(e), v) in d'.intents ==> (EditId(e), v) in d.intents + d'.intents;
  }

  lemma ReplayKept(d: Data, d': Data, locks: set<Lock>, fleet: Fleet, c: Command, rec: Deployment)
    requires DeploymentEffect(d, d', locks, fleet) && ReplayRead(d, c, rec)
    ensures ReplayRead(d', c, rec)
  {
    var id := rec.command.deployment;
    RecordEvolvesTransitive(rec, d.deployments[id], d'.deployments[id]);
    hide AdmittedUnder;
  }

  lemma BoundKept(d: Data, d': Data, locks: set<Lock>, fleet: Fleet, c: Command)
    requires FlightEffect(d, d', locks) && MissionEffect(d, d', locks) && CommandBound(d, fleet, c)
    ensures CommandBound(d', fleet, c)
  {
  }

  lemma DeployFactsKept(d: Data, d': Data, locks: set<Lock>, fleet: Fleet, x: Deploying)
    requires Effect(d, d', locks, fleet) && DeploymentsBound(d, fleet) && DeployFacts(d, fleet, x)
    requires Held(DeployTx(x)) !! locks
    ensures DeployFacts(d', fleet, x)
  {
    hide FlightEffect, MissionEffect, IntentEffect, CommandBound, FlightBindingCurrent, AircraftFlying,
        MissionIsCurrent, NoneHolds, RowRead, ReplayRead;
    var c := x.dep.command;
    BoundKept(d, d', locks, fleet, c);
    if x.at >= 2 && x.replay.None? {
      assert Key(DEPLOYMENT_KEYS, c.key) in Held(DeployTx(x));
    }
    hide DeploymentEffect;
    if x.at >= 2 && x.replay.Some? {
      ReplayKept(d, d', locks, fleet, c, x.replay.value);
    }
    if x.at >= 3 {
      assert FlightRow(c.flight) in Held(DeployTx(x));
      RowKept(d, d', locks, c.flight, x.row);
    }
    if x.at >= 6 {
      assert IntentLock(x.row.intent) in Held(DeployTx(x));
      BindingKept(d, d', locks, x.row);
    }
    if x.at >= 7 {
      assert AircraftLifecycle(x.row.aircraft) in Held(DeployTx(x));
      FlyingKept(d, d', locks, x.row.aircraft);
    }
    if x.at >= 8 {
      MissionKept(d, d', locks, c.flight, c.mission, c.digest);
    }
    if x.at >= 9 {
      NoneHoldsKept(d, d', locks, fleet, x.row.aircraft, ReplayId(x.replay));
    }
  }

  lemma StartFactsKept(d: Data, d': Data, locks: set<Lock>, fleet: Fleet, x: Starting)
    requires Effect(d, d', locks, fleet) && DeploymentsBound(d, fleet) && d.creationOrder.Keys == d.deployments.Keys
    requires StartFacts(d, x) && Held(StartTx(x)) !! locks
    ensures StartFacts(d', x)
  {
    assert x.flight.id in d'.flights && SameRow(x.flight, d'.flights[x.flight.id]);
    hide FlightEffect, MissionEffect, DeploymentEffect, IntentEffect, TopActive, MissionIsCurrent, NoneHolds, RowRead,
        NoOtherFlying, NewestServes;
    if x.at >= 1 {
      assert FlightRow(x.flight.id) in Held(StartTx(x));
      RowKept(d, d', locks, x.flight.id, x.row);
    }
    if x.at >= 3 {
      assert AircraftLifecycle(x.row.aircraft) in Held(StartTx(x));
      OtherFlyingKept(d, d', locks, x.row);
    }
    if x.at >= 5 {
      assert IntentLock(x.row.intent) in Held(StartTx(x));
      BindingKept(d, d', locks, x.row);
    }
    if x.at >= 6 {
      MissionKept(d, d', locks, x.flight.id, x.mission, x.digest);
    }
    if x.at >= 7 {
      NoneHoldsKept(d, d', locks, fleet, x.row.aircraft, None);
    }
    if x.at >= 8 {
      NewestServesKept(d, d', locks, fleet, x.row.aircraft, x.flight.id, x.mission, x.digest);
    }
  }

  lemma ImportFactsKept(d: Data, d': Data, locks: set<Lock>, fleet: Fleet, x: Importing)
    requires Effect(d, d', locks, fleet) && ImportFacts(d, x) && Held(ImportTx(x)) !! locks
    ensures ImportFacts(d', x)
  {
    var m := x.draft;
    if x.at >= 2 {
      assert Key(MISSION_KEYS, m.key) in Held(ImportTx(x));
    }
    assert x.at >= 2 ==> m.key !in d'.missionByKey;
    hide FlightEffect, MissionEffect, DeploymentEffect, IntentEffect, RowRead, FlightBindingCurrent, FlightFenced,
        IsNextVersion;
    if x.at >= 3 {
      assert FlightRow(m.flight) in Held(ImportTx(x));
      RowKept(d, d', locks, m.flight, x.row);
    }
    if x.at >= 5 {
      assert IntentLock(x.row.intent) in Held(ImportTx(x));
      BindingKept(d, d', locks, x.row);
    }
    if x.at >= 6 {
      FenceKept(d, d', locks, fleet, m.flight);
    }
    if x.at >= 8 {
      VersionKept(d, d', locks, m.flight, x.version);
    }
  }

  lemma EditFactsKept(d: Data, d': Data, locks: set<Lock>, fleet: Fleet, x: Editing)
    requires Effect(d, d', locks, fleet) && DeploymentsBound(d, fleet) && EditFacts(d, x) && Held(EditTx(x)) !! locks
    ensures EditFacts(d', x)
  {
    hide FlightEffect, MissionEffect, DeploymentEffect, IntentEffect, OtherActive, IntentFenced, EditGuard,
        DeploymentsBound;
    if x.at >= 3 && x.edit.ActivateEdit? {
      assert AircraftActivation(x.edit.intent.aircraft) in Held(EditTx(x));
      ActiveKept(d, d', locks, x.edit.intent);
    }
    if x.at >= 4 {
      assert IntentLock(EditId(x.edit)) in Held(EditTx(x));
      if IntentFenced(d', EditId(x.edit)) {
        IntentFenceKept(d, d', locks, fleet, EditId(x.edit));
      }
    }
    if x.at >= 5 {
      GuardKept(d, d', locks, x.edit);
    }
  }

  /** Whatever a transaction has read stays true while it holds its locks. */
  lemma FactsKept(d: Data, d': Data, locks: set<Lock>, fleet: Fleet, t: Tx)
    requires Effect(d, d', locks, fleet) && DeploymentsBound(d, fleet) && d.creationOrder.Keys == d.deployments.Keys
    requires Facts(d, fleet, t) && Held(t) !! locks
    ensures Facts(d', fleet, t)
  {
    hide Effect, Held, DeploymentsBound, DeployFacts, StartFacts, ImportFacts, EditFacts;
    match t
    case DeployTx(x) => DeployFactsKept(d, d', locks, fleet, x);
    case StartTx(x) => StartFactsKept(d, d', locks, fleet, x);
    case ImportTx(x) => ImportFactsKept(d, d', locks, fleet, x);
    case EditTx(x) => EditFactsKept(d, d', locks, fleet, x);
  }

  /* ---- commits ---- */

  ghost predicate DataOk(d: Data, fleet: Fleet) { Keyed(d) && Fences(d, fleet) && L.OneActive(d.intents) }

  /** The admission number was drawn after everything admitted on the aircraft. */
  ghost predicate OrderOk(d: Data, x: Deploying) {
    && x.order <= d.nextOrder
    && forall id :: id in d.creationOrder ==>
         d.creationOrder[id] != x.order && (OnAircraft(d, id, x.row.aircraft) ==> d.creationOrder[id] < x.order)
  }

  ghost predicate FreshTx(d: Data, t: Tx) {
    match t
    case DeployTx(x) => x.dep.command.deployment !in d.deployments && (x.at >= 10 ==> OrderOk(d, x))
    case ImportTx(x) => x.draft.id !in d.missions
    case _ => true
  }

  /** A deployment that commits does what the atomic admission does at that moment, up to its admission number. */
  lemma DeployCommits(d: Data, fleet: Fleet, x: Deploying)
    requires DataOk(d, fleet) && DeployFacts(d, fleet, x) && x.at == 10 && FreshTx(d, DeployTx(x))
    ensures var r := CreateDeployment(d, x.dep);
      && r.1 == DeploymentOk(x.dep.(revision := 0))
      && Committed(d, DeployTx(x)) == r.0.(creationOrder := d.creationOrder[x.dep.command.deployment := x.order],
         nextOrder := d.nextOrder)
    ensures !AdmissionBlocked(d, x.dep.command, x.row, None)
  {
    NotBlocked(d, fleet, x);
    hide AdmissionBlocked, DataOk, CommandBound, AircraftFlying, MissionIsCurrent, NoneHolds;
  }

  lemma NotBlocked(d: Data, fleet: Fleet, x: Deploying)
    requires DeployFacts(d, fleet, x) && x.at == 10
    ensures !AdmissionBlocked(d, x.dep.command, x.row, None)
  {
    hide CommandBound, AircraftFlying, MissionIsCurrent, FlightBindingCurrent;
  }

  lemma InsertedKeyed(d: Data, fleet: Fleet, x: Deploying)
    requires Keyed(d) && x.at == 10 && FreshTx(d, DeployTx(x))
    ensures Keyed(Committed(d, DeployTx(x)))
  {
    var d', id := Committed(d, DeployTx(x)), x.dep.command.deployment;
    OrderInserted(d.deployments.Keys, d.creationOrder, d.nextOrder, id, x.order);
    DeploymentInserted(d.deployments, d.deploymentByKey, x.dep.(revision := 0));
    assert d'.deployments.Keys == d.deployments.Keys + {id};
    hide KeyedIntents, KeyedVolumes, KeyedFlights, KeyedMissions, KeyedDeployments, KeyedOrder, KeyedPublications,
        KeyedNotifications, OrderOk;
  }

  lemma OrderInserted(ids: set<Id>, order: map<Id, nat>, next: nat, id: Id, number: nat)
    requires KeyedOrder(ids, order, next) && number <= next && forall other :: other in order ==> order[other] != number
    ensures KeyedOrder(ids + {id}, order[id := number], next)
  {
  }

  lemma DeploymentInserted(deployments: map<Id, Deployment>, byKey: map<Id, Id>, dep: Deployment)
    requires KeyedDeployments(deployments, byKey) && dep.command.deployment !in deployments
    ensures KeyedDeployments(deployments[dep.command.deployment := dep],
      byKey[dep.command.key := dep.command.deployment])
  {
  }

  lemma InsertedKeepsFences(d: Data, fleet: Fleet, x: Deploying)
    requires DataOk(d, fleet) && DeployFacts(d, fleet, x) && x.at == 10 && FreshTx(d, DeployTx(x))
    ensures Fences(Committed(d, DeployTx(x)), fleet)
  {
    var dep := x.dep.(revision := 0);
    NotBlocked(d, fleet, x);
    assert CommandBound(d, fleet, dep.command) && d.flights[dep.command.flight] == x.row;
    hide AdmissionBlocked, CommandBound, DeployFacts, FreshTx, Keyed, OutstandingOpen, FlyingServed;
    DeploymentAddedKeepsFences(d, dep, fleet);
    AircraftFree(d, dep, fleet);
    RenumberedKeepsFences(d, fleet, dep, x.order);
  }

  /** Renumbering the newly admitted deployment leaves every flying aircraft's newest deployment alone. */
  lemma RenumberedKeepsFences(d: Data, fleet: Fleet, dep: Deployment, order: nat)
    requires Fences(AddDeployment(d, dep), fleet)
    requires dep.command.flight in d.flights && d.flights[dep.command.flight].aircraft == dep.command.aircraft
    requires forall f :: f in d.flights && d.flights[f].status.Flying? ==> d.flights[f].aircraft != dep.command.aircraft
    ensures Fences(Inserted(d, dep, order), fleet)
  {
    var add, d' := AddDeployment(d, dep), Inserted(d, dep, order);
    assert d'.deployments == add.deployments && d'.missions == add.missions && d'.flights == add.flights &&
        d'.intents == add.intents;
    RenumberedServed(d, dep, order) by { hide OutstandingOpen; }
    RenumberedOpen(add, d') by { hide FlyingServed; }
    hide FlyingServed, OutstandingOpen;
  }

  lemma RenumberedServed(d: Data, dep: Deployment, order: nat)
    requires FlyingServed(AddDeployment(d, dep))
    requires dep.command.flight in d.flights && d.flights[dep.command.flight].aircraft == dep.command.aircraft
    requires forall f :: f in d.flights && d.flights[f].status.Flying? ==> d.flights[f].aircraft != dep.command.aircraft
    ensures FlyingServed(Inserted(d, dep, order))
  {
    var add, d' := AddDeployment(d, dep), Inserted(d, dep, order);
    forall f | f in d'.flights && d'.flights[f].status.Flying? ensures ServedByNewest(d', f) {
      assert ServedByNewest(add, f);
      var id :| IsNewest(add, id, d.flights[f].aircraft) && ServesFlight(add, id, f);
      ServesSame(add, d', id, f);
      NewestRenumbered(d, dep, order, id, d.flights[f].aircraft);
      assert IsNewest(d', id, d.flights[f].aircraft) && ServesFlight(d', id, f);
    }
  }

  lemma RenumberedOpen(add: Data, d': Data)
    requires OutstandingOpen(add) && d'.deployments == add.deployments && d'.flights == add.flights
    requires d'.missions == add.missions
    requires d'.intents == add.intents
    ensures OutstandingOpen(d')
  {
    forall id | id in d'.deployments && Outstanding(d'.deployments[id].status)
      ensures OpenFor(d', d'.deployments[id].command) {
      assert OpenFor(add, add.deployments[id].command);
    }
  }

  lemma NewestRenumbered(d: Data, dep: Deployment, order: nat, id: Id, aircraft: Id)
    requires IsNewest(AddDeployment(d, dep), id, aircraft) && dep.command.aircraft != aircraft
    requires dep.command.flight in d.flights && d.flights[dep.command.flight].aircraft == dep.command.aircraft
    ensures IsNewest(Inserted(d, dep, order), id, aircraft)
  {
    var add, d' := AddDeployment(d, dep), Inserted(d, dep, order);
    forall other | OnAircraft(d', other, aircraft) && other in d'.creationOrder
      ensures d'.creationOrder[other] <= d'.creationOrder[id]
    {
      assert OnAircraft(add, other, aircraft) && other in add.creationOrder;
    }
  }

  lemma ServesSame(d: Data, d': Data, id: Id, f: Id)
    requires d'.deployments == d.deployments && d'.missions == d.missions && ServesFlight(d, id, f)
    ensures ServesFlight(d', id, f)
  {
  }

  lemma InsertedEffect(d: Data, fleet: Fleet, x: Deploying)
    requires DataOk(d, fleet) && DeployFacts(d, fleet, x) && x.at == 10 && FreshTx(d, DeployTx(x))
    ensures Effect(d, Committed(d, DeployTx(x)), Held(DeployTx(x)), fleet)
  {
    var d', locks := Committed(d, DeployTx(x)), Held(DeployTx(x));
    assert d.creationOrder.Keys == d.deployments.Keys;
    AdmittedHolds(d, fleet, x);
    HeldKey(x);
    assert x.dep.command.key !in d.deploymentByKey by { hide DataOk, CommandBound; }
    hide DataOk, DeployFacts, Held;
    AdmittedEffect(d, fleet, x.dep.(revision := 0), x.order, locks);
    OnlyDeploymentsChange(d, d', locks);
    hide Committed, DeploymentEffect, FlightEffect, MissionEffect, IntentEffect;
  }

  lemma AdmittedEffect(d: Data, fleet: Fleet, dep: Deployment, order: nat, locks: set<Lock>)
    requires AdmittedUnder(d, dep.command, locks, fleet) && Key(DEPLOYMENT_KEYS, dep.command.key) in locks
    requires dep.command.deployment !in d.deployments && dep.command.key !in d.deploymentByKey
    requires d.creationOrder.Keys == d.deployments.Keys
    ensures DeploymentEffect(d, Inserted(d, dep, order), locks, fleet)
  {
    hide AdmittedUnder;
  }

  lemma OnlyDeploymentsChange(d: Data, d': Data, locks: set<Lock>)
    requires d'.flights == d.flights && d'.missions == d.missions && d'.missionByKey == d.missionByKey
    requires d'.intents == d.intents
    ensures FlightEffect(d, d', locks) && MissionEffect(d, d', locks) && IntentEffect(d, d', locks)
  {
  }

  lemma AdmittedHolds(d: Data, fleet: Fleet, x: Deploying)
    requires DeployFacts(d, fleet, x) && x.at == 10
    ensures AdmittedUnder(d, x.dep.command, Held(DeployTx(x)), fleet)
  {
    hide CommandBound;
  }

  lemma HeldKey(x: Deploying)
    requires x.at >= 1
    ensures Key(DEPLOYMENT_KEYS, x.dep.command.key) in Held(DeployTx(x))
  {
  }

  /** A flight that commits its start does what the atomic start does at that moment. */
  lemma StartCommits(d: Data, fleet: Fleet, x: Starting)
    requires DataOk(d, fleet) && StartFacts(d, x) && x.at == 8
    ensures StartFlight(d, x.flight, Planned) == (Committed(d, StartTx(x)), Done)
    ensures MayStart(d, x.row) && x.row == d.flights[x.flight.id] && x.row.id == x.flight.id
  {
    assert x.row.id == x.flight.id by { assert KeyedFlights(d.flights); hide StartFacts; }
    StartAllowed(d, x);
    assert !NoIntent(d, x.row.intent) && NoOtherFlying(d, x.row);
    hide DataOk, MayStart, NoIntent, NoneHolds, NewestServes, MissionIsCurrent, TopActive;
  }

  lemma StartAllowed(d: Data, x: Starting)
    requires StartFacts(d, x) && x.at == 8 && x.row.id == x.flight.id
    ensures MayStart(d, x.row)
  {
    var id :| IsNewest(d, id, x.row.aircraft) && d.deployments[id].command.flight == x.flight.id &&
        d.deployments[id].command.mission == x.mission &&
              d.deployments[id].command.digest == x.digest && Verified(d.deployments[id].status);
    assert IsNewest(d, id, x.row.aircraft) && ServesFlight(d, id, x.flight.id);
    hide IsNewest, ServesFlight, MissionIsCurrent, HoldsAircraft;
  }

  lemma StartedOk(d: Data, fleet: Fleet, x: Starting)
    requires DataOk(d, fleet) && StartFacts(d, x) && x.at == 8
    ensures DataOk(Committed(d, StartTx(x)), fleet)
    ensures Effect(d, Committed(d, StartTx(x)), Held(StartTx(x)), fleet)
  {
    StartCommits(d, fleet, x);
    var d' := Committed(d, StartTx(x));
    assert x.flight == x.row.(status := Flying, startedAt := x.flight.startedAt) && x.row.status.Planned?;
    assert KeyedFlights(d.flights);
    hide StartFacts, MayStart, StartFlight;
    FlightStartedKeepsFences(d, x.flight, fleet) by { hide Keyed, Fences, KeyedFlights; }
    FlightWriteKeyed(d, x.flight);
    StartedEffect(d, fleet, x);
    hide Keyed, Fences, Effect;
  }

  lemma FlightWriteKeyed(d: Data, f: Flight)
    requires Keyed(d)
    ensures Keyed(d.(flights := d.flights[f.id := f]))
  {
    assert KeyedFlights(d.flights[f.id := f]);
    hide KeyedFlights, KeyedIntents, KeyedVolumes, KeyedMissions, KeyedDeployments, KeyedOrder, KeyedPublications,
        KeyedNotifications;
  }

  lemma StartedEffect(d: Data, fleet: Fleet, x: Starting)
    requires Keyed(d) && x.at == 8 && x.flight.id in d.flights && d.flights[x.flight.id] == x.row
    requires x.row.status.Planned?
    requires x.flight == x.row.(status := Flying, startedAt := x.flight.startedAt)
    ensures Effect(d, Committed(d, StartTx(x)), Held(StartTx(x)), fleet)
  {
    assert d.creationOrder.Keys == d.deployments.Keys;
    hide Keyed;
    SameDeployments(d, Committed(d, StartTx(x)), Held(StartTx(x)), fleet);
    hide DeploymentEffect;
  }

  lemma SameDeployments(d: Data, d': Data, locks: set<Lock>, fleet: Fleet)
    requires d'.deployments == d.deployments && d'.deploymentByKey == d.deploymentByKey
    requires d'.creationOrder == d.creationOrder
    requires d.creationOrder.Keys == d.deployments.Keys
    ensures DeploymentEffect(d, d', locks, fleet)
  {
    hide AdmittedUnder;
  }

  /** An import that commits does what the atomic import does at that moment. */
  lemma ImportCommits(d: Data, fleet: Fleet, x: Importing)
    requires DataOk(d, fleet) && ImportFacts(d, x) && x.at == 8 && FreshTx(d, ImportTx(x))
    ensures CreatesMission(d, x.draft, Committed(d, ImportTx(x)), MissionOk(x.draft.(version := x.version)))
  {
    assert x.row.id == x.draft.flight by { assert KeyedFlights(d.flights); }
    hide DataOk, FlightFenced, IsNextVersion, AddMission;
  }

  lemma ImportedOk(d: Data, fleet: Fleet, x: Importing)
    requires DataOk(d, fleet) && ImportFacts(d, x) && x.at == 8 && FreshTx(d, ImportTx(x))
    ensures DataOk(Committed(d, ImportTx(x)), fleet)
    ensures Effect(d, Committed(d, ImportTx(x)), Held(ImportTx(x)), fleet)
  {
    var m := x.draft.(version := x.version);
    ImportedEffect(d, fleet, x);
    ImportFits(d, fleet, x);
    hide Effect, ImportFacts, Fences, FlightFenced, IsNextVersion;
    AddMissionKeyed(d, m) by { hide Keyed; }
    MissionAddedKeepsFences(d, m, fleet) by { hide Keyed; }
    hide Keyed, AddMission;
  }

  lemma ImportFits(d: Data, fleet: Fleet, x: Importing)
    requires Keyed(d) && ImportFacts(d, x) && x.at == 8 && FreshTx(d, ImportTx(x))
    ensures var m := x.draft.(version := x.version);
      && m.id !in d.missions && m.flight in d.flights && d.flights[m.flight].status.Planned?
      && MissionFits(m, d.flights[m.flight])
      && !FlightFenced(d, m.flight) && IsNextVersion(d, m.flight, m.version)
  {
    assert x.row.id == x.draft.flight by { assert KeyedFlights(d.flights); hide ImportFacts; }
    hide Keyed, FlightFenced, IsNextVersion, FlightBindingCurrent;
  }

  lemma ImportedEffect(d: Data, fleet: Fleet, x: Importing)
    requires Keyed(d) && x.at == 8 && FreshTx(d, ImportTx(x))
    ensures Effect(d, Committed(d, ImportTx(x)), Held(ImportTx(x)), fleet)
  {
    assert d.creationOrder.Keys == d.deployments.Keys;
    hide Keyed;
    var d', locks := Committed(d, ImportTx(x)), Held(ImportTx(x));
    SameDeployments(d, d', locks, fleet);
    assert FlightRow(x.draft.flight) in locks && Key(MISSION_KEYS, x.draft.key) in locks;
    hide DeploymentEffect, Held;
    MissionEffectOfImport(d, x.draft.(version := x.version), locks);
    SameFlightsAndIntents(d, d', locks);
    hide FlightEffect, MissionEffect, IntentEffect;
  }

  lemma MissionEffectOfImport(d: Data, m: Mission, locks: set<Lock>)
    requires m.id !in d.missions && FlightRow(m.flight) in locks && Key(MISSION_KEYS, m.key) in locks
    ensures MissionEffect(d, AddMission(d, m), locks)
  {
  }

  lemma SameFlightsAndIntents(d: Data, d': Data, locks: set<Lock>)
    requires d'.flights == d.flights && d'.intents == d.intents
    ensures FlightEffect(d, d', locks) && IntentEffect(d, d', locks)
  {
  }

  /* ---- edits ---- */

  /** What an edit's commit changes: rows of its own intent, one of them active only after an activation. */
  ghost predicate EditChange(d: Data, d': Data, e: Edit) {
    && d' == d.(intents := d'.intents, volumes := d'.volumes)
    && KeyedIntents(d'.intents) && KeyedVolumes(d'.volumes)
    && L.OtherIntentsKept(d.intents, d'.intents, EditId(e))
    && (forall k ::
       k in d'.intents && d'.intents[k].status.Active? && (k !in d.intents || d.intents[k] != d'.intents[k]) ==>
          e.ActivateEdit? && k == (e.intent.id, e.intent.version) && d'.intents[k].aircraft == e.intent.aircraft)
  }

  /** An edit that commits does what the atomic operation does at that moment. */
  lemma EditCommits(d: Data, fleet: Fleet, x: Editing)
    requires DataOk(d, fleet) && EditFacts(d, x) && x.at == 5
    ensures Atomic(d, x.edit).1.Done? && EditChange(d, Committed(d, EditTx(x)), x.edit)
  {
    var e := x.edit;
    assert KeyedIntents(d.intents) && KeyedVolumes(d.volumes);
    hide DataOk;
    match e
    case CreateEdit(intent) => CreateChange(d, intent);
    case UpdateEdit(intent, expected) => UpdateChange(d, e, intent, expected);
    case AcceptEdit(intent, expected) => AcceptChange(d, e, intent, expected);
    case ReplaceEdit(expectedVersion, expected, intent, volumes) => ReplaceChange(d, e);
    case VolumeEdit(volume) => VolumeChange(d, volume);
    case ActivateEdit(intent, expected) => UpdateChange(d, e, intent, expected);
  }

  lemma CreateChange(d: Data, intent: Intent)
    requires KeyedIntents(d.intents) && KeyedVolumes(d.volumes) && !IntentFenced(d, intent.id)
    requires (intent.id, intent.version) !in d.intents
    requires !intent.status.Active?
    ensures CreateIntent(d, intent).1.Done? && EditChange(d, CreateIntent(d, intent).0, CreateEdit(intent))
  {
    hide IntentFenced;
  }

  lemma UpdateChange(d: Data, e: Edit, intent: Intent, expected: int)
    requires KeyedIntents(d.intents) && KeyedVolumes(d.volumes) && !IntentFenced(d, intent.id)
    requires CurrentIs(d, intent.id, intent.version, expected)
    requires e == UpdateEdit(intent, expected) || (e == ActivateEdit(intent, expected) && !OtherActive(d, intent))
    requires ValidEdit(e)
    ensures Atomic(d, e) == (d.(intents := UpdatedIntents(d.intents, intent, expected)), Done)
    ensures EditChange(d, Atomic(d, e).0, e)
  {
    assert !NoIntent(d, intent.id);
    assert Atomic(d, e) == (d.(intents := UpdatedIntents(d.intents, intent, expected)), Done) by {
      hide IntentFenced, UpdatedIntents, OtherActive, CurrentIs, NoIntent;
    }
    hide IntentFenced, OtherActive, CurrentIs, NoIntent, Atomic;
  }

  lemma AcceptChange(d: Data, e: Edit, intent: Intent, expected: int)
    requires KeyedIntents(d.intents) && KeyedVolumes(d.volumes) && !IntentFenced(d, intent.id)
    requires CurrentIs(d, intent.id, intent.version, expected)
    requires e == AcceptEdit(intent, expected) && ValidEdit(e)
    ensures Atomic(d, e) == (d.(intents := AcceptedIntents(d.intents, intent, expected)), Done)
    ensures EditChange(d, Atomic(d, e).0, e)
  {
    assert !NoIntent(d, intent.id);
    assert Atomic(d, e) == (d.(intents := AcceptedIntents(d.intents, intent, expected)), Done) by {
      hide IntentFenced, AcceptedIntents, CurrentIs, NoIntent;
    }
    hide IntentFenced, CurrentIs, NoIntent, Atomic;
  }

  lemma ReplaceChange(d: Data, e: Edit)
    requires KeyedIntents(d.intents) && KeyedVolumes(d.volumes) && e.ReplaceEdit? && !IntentFenced(d, e.intent.id)
    requires EditGuard(d, e) && ValidEdit(e)
    ensures Atomic(d, e).1.Done? && EditChange(d, Atomic(d, e).0, e)
  {
    assert !NoIntent(d, e.intent.id);
    var intents := ReplacedIntents(d.intents, e.expectedVersion, e.expected, e.intent);
    var volumes := ReplacedVolumes(d.volumes, e.intent.id, e.intent.version, e.volumes);
    assert Atomic(d, e) == (d.(intents := intents, volumes := volumes), Done) by {
      hide IntentFenced, ReplacedIntents, ReplacedVolumes, CurrentIs, NoIntent, InScope;
    }
    assert KeyedVolumes(volumes) by {
      var kept := map k | k in d.volumes &&
          !(d.volumes[k].intent == e.intent.id && d.volumes[k].intentVersion == e.intent.version) :: d.volumes[k];
      WritesKeepKeys(kept, e.volumes);
      hide WriteVolumes, IntentFenced, EditGuard;
    }
    hide IntentFenced, EditGuard, NoIntent, ReplacedVolumes, KeyedVolumes, Atomic;
  }

  lemma VolumeChange(d: Data, volume: Volume)
    requires KeyedIntents(d.intents) && KeyedVolumes(d.volumes) && !IntentFenced(d, volume.intent)
    ensures RecordVolume(d, volume).1.Done? && EditChange(d, RecordVolume(d, volume).0, VolumeEdit(volume))
  {
    hide IntentFenced;
  }

  lemma EditedOk(d: Data, fleet: Fleet, x: Editing)
    requires DataOk(d, fleet) && EditFacts(d, x) && x.at == 5
    ensures DataOk(Committed(d, EditTx(x)), fleet)
    ensures Effect(d, Committed(d, EditTx(x)), Held(EditTx(x)), fleet)
  {
    var d', e := Committed(d, EditTx(x)), x.edit;
    EditCommits(d, fleet, x);
    assert !IntentFenced(d, EditId(e)) && (e.ActivateEdit? ==> !OtherActive(d, e.intent));
    hide Atomic, Committed, EditFacts;
    EditEffect(d, d', fleet, x);
    ActiveStaysOne(d, d', e);
    EditKeepsFences(d, d', fleet, e);
    EditKeyed(d, d', e);
    hide Keyed, Fences, Effect, L.OneActive, EditChange;
  }

  lemma EditKeyed(d: Data, d': Data, e: Edit)
    requires Keyed(d) && EditChange(d, d', e)
    ensures Keyed(d')
  {
    hide KeyedFlights, KeyedIntents, KeyedVolumes, KeyedMissions, KeyedDeployments, KeyedOrder, KeyedPublications,
        KeyedNotifications;
    hide L.OtherIntentsKept;
  }

  lemma EditEffect(d: Data, d': Data, fleet: Fleet, x: Editing)
    requires Keyed(d) && EditChange(d, d', x.edit) && x.at == 5
    ensures Effect(d, d', Held(EditTx(x)), fleet)
  {
    assert d.creationOrder.Keys == d.deployments.Keys;
    hide Keyed, KeyedIntents, KeyedVolumes;
    var locks := Held(EditTx(x));
    assert IntentLock(EditId(x.edit)) in locks;
    assert x.edit.ActivateEdit? ==> AircraftActivation(x.edit.intent.aircraft) in locks;
    SameDeployments(d, d', locks, fleet);
    hide DeploymentEffect, Held;
    assert IntentEffect(d, d', locks);
    hide IntentEffect, EditChange;
  }

  lemma ActiveStaysOne(d: Data, d': Data, e: Edit)
    requires L.OneActive(d.intents) && EditChange(d, d', e) && (e.ActivateEdit? ==> !OtherActive(d, e.intent))
    ensures L.OneActive(d'.intents)
  {
    hide KeyedIntents, KeyedVolumes, L.OtherIntentsKept;
    forall j, k | j in d'.intents && k in d'.intents && L.BothActive(d'.intents[j], d'.intents[k]) ensures j == k {
      if j in d.intents && k in d.intents && d.intents[j] == d'.intents[j] && d.intents[k] == d'.intents[k] {
        assert L.BothActive(d.intents[j], d.intents[k]);
      }
    }
  }

  lemma EditKeepsFences(d: Data, d': Data, fleet: Fleet, e: Edit)
    requires Fences(d, fleet) && EditChange(d, d', e) && !IntentFenced(d, EditId(e))
    ensures Fences(d', fleet)
  {
    assert FencedIntentsKept(d, d'.intents) by { hide KeyedIntents, KeyedVolumes, IntentFenced, Fences; }
    hide KeyedIntents, KeyedVolumes, IntentFenced, Fences, FencedIntentsKept, L.OtherIntentsKept;
    IntentChangeKeepsFences(d, d', fleet);
  }

  /* ---- the whole protocol ---- */

  ghost predicate Disjoint(t: Tx, u: Tx) {
    && Held(t) !! Held(u)
    && (t.DeployTx? && u.DeployTx? ==>
          && t.deploying.dep.command.deployment != u.deploying.dep.command.deployment
          && (t.deploying.at >= 10 && u.deploying.at >= 10 ==> t.deploying.order != u.deploying.order))
    && (t.ImportTx? && u.ImportTx? ==> t.importing.draft.id != u.importing.draft.id)
  }

  ghost predicate TxOk(d: Data, fleet: Fleet, t: Tx) { Facts(d, fleet, t) && FreshTx(d, t) }

  ghost predicate StoreInv(fleet: Fleet, s: Pg) {
    && DataOk(s.d, fleet)
    && (forall n :: n in s.txs ==> TxOk(s.d, fleet, s.txs[n]))
    && (forall m, n :: m in s.txs && n in s.txs && m != n ==> Disjoint(s.txs[m], s.txs[n]))
  }

  lemma StoreTx(fleet: Fleet, s: Pg, n: nat)
    requires StoreInv(fleet, s) && n in s.txs
    ensures DataOk(s.d, fleet) && Facts(s.d, fleet, s.txs[n]) && FreshTx(s.d, s.txs[n])
  {
    hide DataOk, Disjoint, Facts, FreshTx;
    assert TxOk(s.d, fleet, s.txs[n]);
  }

  lemma StorePair(fleet: Fleet, s: Pg, m: nat, n: nat)
    requires StoreInv(fleet, s) && m in s.txs && n in s.txs && m != n
    ensures Disjoint(s.txs[m], s.txs[n]) && Held(s.txs[m]) !! Held(s.txs[n])
  {
    hide DataOk, TxOk, Held;
  }

  lemma StoreData(fleet: Fleet, s: Pg)
    requires StoreInv(fleet, s)
    ensures DataOk(s.d, fleet)
  {
    hide DataOk, TxOk, Disjoint;
  }

  /** The snapshots the deployment calls hold are of the stored records, and every command sent has its marker. */
  ghost predicate ClientsOk(d: Data, fleet: Fleet, calls: map<nat, Call>, sent: seq<Id>) {
    O.CallsOk(d, fleet, calls) && O.SentOk(d, sent)
  }

  ghost predicate PgInv(fleet: Fleet, s: Pg) { StoreInv(fleet, s) && ClientsOk(s.d, fleet, s.calls, s.sent) }

  /** Committed records only move forward. */
  ghost predicate OnlyAdvances(d: Data, d': Data) { DeploymentsEvolve(d, d') && BindingsKept(d, d') }

  lemma EffectAdvances(d: Data, d': Data, locks: set<Lock>, fleet: Fleet)
    requires Effect(d, d', locks, fleet)
    ensures OnlyAdvances(d, d')
  {
    hide IntentEffect, AdmittedUnder, RecordEvolves, FlightEvolves;
  }

  lemma StoreMade(fleet: Fleet, s: Pg)
    requires DataOk(s.d, fleet)
    requires forall n :: n in s.txs ==> Facts(s.d, fleet, s.txs[n]) && FreshTx(s.d, s.txs[n])
    requires forall m, n :: m in s.txs && n in s.txs && m != n ==> Disjoint(s.txs[m], s.txs[n])
    ensures StoreInv(fleet, s)
  {
    hide DataOk, Disjoint, Facts, FreshTx;
  }

  lemma DataBound(d: Data, fleet: Fleet)
    requires DataOk(d, fleet)
    ensures DeploymentsBound(d, fleet) && d.creationOrder.Keys == d.deployments.Keys
    ensures forall id :: id in d.creationOrder ==> d.creationOrder[id] <= d.nextOrder
    ensures KeyedDeployments(d.deployments, d.deploymentByKey)
  {
  }

  /* statements */

  lemma SequenceEffect(d: Data, next: nat, fleet: Fleet)
    requires d.creationOrder.Keys == d.deployments.Keys
    ensures Effect(d, d.(nextOrder := next), {}, fleet)
  {
  }

  lemma SequenceDataOk(d: Data, next: nat, fleet: Fleet)
    requires DataOk(d, fleet) && next >= d.nextOrder
    ensures DataOk(d.(nextOrder := next), fleet)
  {
    var d' := d.(nextOrder := next);
    assert Keyed(d') by {
      assert KeyedOrder(d'.deployments.Keys, d'.creationOrder, d'.nextOrder);
      hide KeyedIntents, KeyedVolumes, KeyedFlights, KeyedMissions, KeyedDeployments, KeyedOrder, KeyedPublications,
          KeyedNotifications, Fences;
    }
    hide Keyed, Fences;
    FencesByTables(d, d', fleet);
  }

  lemma FencesByTables(d: Data, d': Data, fleet: Fleet)
    requires Fences(d, fleet) && d' == d.(nextOrder := d'.nextOrder)
    ensures Fences(d', fleet)
  {
    OpenByTables(d, d');
    ServedByTables(d, d');
    hide OutstandingOpen, FlyingServed;
  }

  lemma OpenByTables(d: Data, d': Data)
    requires OutstandingOpen(d) && d' == d.(nextOrder := d'.nextOrder)
    ensures OutstandingOpen(d')
  {
    forall id | id in d'.deployments && Outstanding(d'.deployments[id].status)
      ensures OpenFor(d', d'.deployments[id].command) {
      assert OpenFor(d, d.deployments[id].command);
    }
  }

  lemma ServedByTables(d: Data, d': Data)
    requires FlyingServed(d) && d' == d.(nextOrder := d'.nextOrder)
    ensures FlyingServed(d')
  {
    forall f | f in d'.flights && d'.flights[f].status.Flying? ensures ServedByNewest(d', f) {
      ServedKept(d, d', f);
    }
  }

  /** After a statement the transaction's facts include what the statement found. */
  lemma RunFinds(d: Data, fleet: Fleet, t: Tx, t': Tx, next: nat)
    requires Facts(d, fleet, t) && Runs(d, t, t', next) && KeyedDeployments(d.deployments, d.deploymentByKey)
    ensures Facts(d, fleet, t')
  {
    hide Facts, CommandBound, AircraftFlying, MissionIsCurrent, NoneHolds, FlightBindingCurrent, TopActive,
        NewestServes, NoOtherFlying,
      IsNextVersion, FlightFenced, IntentFenced, OtherActive, EditGuard;
    match (t, t')
    case (DeployTx(a), DeployTx(b)) => assert DeployFacts(d, fleet, a)
      by { FactsOf(d, fleet, t); } assert DeployFacts(d, fleet, b); FactsOf(d, fleet, t');
    case (StartTx(a), StartTx(b)) => assert StartFacts(d, a) by { FactsOf(d, fleet, t); } assert StartFacts(d, b);
      FactsOf(d, fleet, t');
    case (ImportTx(a), ImportTx(b)) => assert ImportFacts(d, a) by { FactsOf(d, fleet, t); } assert ImportFacts(d, b);
      FactsOf(d, fleet, t');
    case (EditTx(a), EditTx(b)) => assert EditFacts(d, a) by { FactsOf(d, fleet, t); } assert EditFacts(d, b);
      FactsOf(d, fleet, t');
  }

  lemma FactsOf(d: Data, fleet: Fleet, t: Tx)
    ensures t.DeployTx? ==> (Facts(d, fleet, t) <==> DeployFacts(d, fleet, t.deploying))
    ensures t.StartTx? ==> (Facts(d, fleet, t) <==> StartFacts(d, t.starting))
    ensures t.ImportTx? ==> (Facts(d, fleet, t) <==> ImportFacts(d, t.importing))
    ensures t.EditTx? ==> (Facts(d, fleet, t) <==> EditFacts(d, t.editing))
  {
  }

  lemma RunTakes(d: Data, t: Tx, t': Tx, next: nat)
    requires Runs(d, t, t', next)
    ensures Held(t') <= Held(t) + (if NextLock(t).Some? then {NextLock(t).value} else {})
  {
    hide CommandBound, AircraftFlying, MissionIsCurrent, NoneHolds, FlightBindingCurrent, TopActive, NewestServes,
        NoOtherFlying,
      IsNextVersion, FlightFenced, IntentFenced, OtherActive, EditGuard;
  }

  lemma StatementFresh(d: Data, t: Tx, t': Tx, next: nat, fleet: Fleet)
    requires FreshTx(d, t) && Runs(d, t, t', next) && DataOk(d, fleet)
    ensures FreshTx(d.(nextOrder := next), t') && next >= d.nextOrder
  {
    DataBound(d, fleet);
    hide DataOk, RunsStart, RunsEdit, OrderOk, RunsDeploy;
    if t.DeployTx? {
      hide RunsImport;
      DrawnFresh(d, t.deploying, t'.deploying, next);
    } else if t.ImportTx? {
      SameIdentity(d, t, t', next);
      hide RunsImport;
    }
  }

  lemma DrawnFresh(d: Data, x: Deploying, y: Deploying, next: nat)
    requires FreshTx(d, DeployTx(x)) && RunsDeploy(d, x, y, next)
    requires forall id :: id in d.creationOrder ==> d.creationOrder[id] <= d.nextOrder
    ensures FreshTx(d.(nextOrder := next), DeployTx(y)) && next >= d.nextOrder
  {
    hide AircraftFlying, MissionIsCurrent, NoneHolds, FlightBindingCurrent, CommandFits;
  }

  lemma OthersFresh(d: Data, t: Tx, next: nat)
    requires FreshTx(d, t) && next >= d.nextOrder
    ensures FreshTx(d.(nextOrder := next), t)
  {
  }

  lemma StatementDisjoint(d: Data, t: Tx, t': Tx, next: nat, u: Tx)
    requires Disjoint(t, u) && Runs(d, t, t', next) && FreshTx(d, u)
    requires NextLock(t).Some? ==> NextLock(t).value !in Held(u)
    ensures Disjoint(t', u) && Disjoint(u, t')
  {
    RunTakes(d, t, t', next);
    SameIdentity(d, t, t', next);
    hide Held, NextLock, OrderOk, Runs;
    assert u.DeployTx? && u.deploying.at >= 10 ==> u.deploying.order <= d.nextOrder by { OrderBound(d, u); }
  }

  lemma OrderBound(d: Data, u: Tx)
    requires FreshTx(d, u)
    ensures u.DeployTx? && u.deploying.at >= 10 ==> u.deploying.order <= d.nextOrder
  {
  }

  /** A transaction keeps its identity, and its number once drawn; a newly drawn one is beyond the sequence. */
  lemma SameIdentity(d: Data, t: Tx, t': Tx, next: nat)
    requires Runs(d, t, t', next)
    ensures t.DeployTx? <==> t'.DeployTx?
    ensures t.ImportTx? <==> t'.ImportTx?
    ensures t.DeployTx? ==> t'.deploying.dep == t.deploying.dep && t.deploying.at < 10
    ensures t.DeployTx? && t'.deploying.at >= 10 ==> t'.deploying.order > d.nextOrder
    ensures t.ImportTx? ==> t'.importing.draft.id == t.importing.draft.id
  {
    hide CommandBound, AircraftFlying, MissionIsCurrent, NoneHolds, FlightBindingCurrent, TopActive, NewestServes,
        NoOtherFlying,
      IsNextVersion, FlightFenced, IntentFenced, OtherActive, EditGuard;
  }

  lemma StatementKeeps(fleet: Fleet, s: Pg, n: nat, s': Pg)
    requires StoreInv(fleet, s) && PgNext(fleet, s, Statement(n), s')
    ensures StoreInv(fleet, s') && OnlyAdvances(s.d, s'.d)
  {
    StatementShape(fleet, s, n, s');
    hide *;
    var next := s'.d.nextOrder;
    StatementData(fleet, s, n, s'.txs[n], next);
    forall m | m in s'.txs ensures Facts(s'.d, fleet, s'.txs[m]) && FreshTx(s'.d, s'.txs[m]) {
      StatementTx(fleet, s, n, s'.txs[n], next, m);
    }
    forall a, b | a in s'.txs && b in s'.txs && a != b ensures Disjoint(s'.txs[a], s'.txs[b]) {
      StatementPair(fleet, s, n, s'.txs[n], next, a, b);
    }
    StoreMade(fleet, s');
  }

  lemma StatementData(fleet: Fleet, s: Pg, n: nat, t': Tx, next: nat)
    requires StoreInv(fleet, s) && n in s.txs && Runs(s.d, s.txs[n], t', next)
    ensures DataOk(s.d.(nextOrder := next), fleet) && OnlyAdvances(s.d, s.d.(nextOrder := next))
  {
    hide *;
    StoreTx(fleet, s, n);
    DataBound(s.d, fleet);
    StatementFresh(s.d, s.txs[n], t', next, fleet);
    SequenceDataOk(s.d, next, fleet);
    SequenceEffect(s.d, next, fleet);
    EffectAdvances(s.d, s.d.(nextOrder := next), {}, fleet);
  }

  lemma StatementTx(fleet: Fleet, s: Pg, n: nat, t': Tx, next: nat, m: nat)
    requires StoreInv(fleet, s) && n in s.txs && m in s.txs && Runs(s.d, s.txs[n], t', next)
    ensures var d', u := s.d.(nextOrder := next), s.txs[n := t'][m]; Facts(d', fleet, u) && FreshTx(d', u)
  {
    hide *;
    StoreTx(fleet, s, n);
    StoreTx(fleet, s, m);
    DataBound(s.d, fleet);
    StatementFresh(s.d, s.txs[n], t', next, fleet);
    if m == n {
      RunFinds(s.d, fleet, s.txs[n], t', next);
    } else {
      OthersFresh(s.d, s.txs[m], next);
    }
    SequenceEffect(s.d, next, fleet);
    NoLocks(s.txs[n := t'][m]);
    FactsKept(s.d, s.d.(nextOrder := next), {}, fleet, s.txs[n := t'][m]);
  }

  lemma StatementPair(fleet: Fleet, s: Pg, n: nat, t': Tx, next: nat, a: nat, b: nat)
    requires StoreInv(fleet, s) && n in s.txs && a in s.txs && b in s.txs && a != b && Runs(s.d, s.txs[n], t', next)
    requires NextLock(s.txs[n]).Some? ==> forall m :: m in s.txs && m != n ==>
      NextLock(s.txs[n]).value !in Held(s.txs[m])
    ensures Disjoint(s.txs[n := t'][a], s.txs[n := t'][b])
  {
    hide *;
    if a == n || b == n {
      var m := if a == n then b else a;
      StoreTx(fleet, s, m);
      StorePair(fleet, s, n, m);
      StatementDisjoint(s.d, s.txs[n], t', next, s.txs[m]);
    } else {
      StorePair(fleet, s, a, b);
    }
  }

  lemma StatementShape(fleet: Fleet, s: Pg, n: nat, s': Pg)
    requires PgNext(fleet, s, Statement(n), s')
    ensures n in s.txs && n in s'.txs && Runs(s.d, s.txs[n], s'.txs[n], s'.d.nextOrder)
    ensures s'.d == s.d.(nextOrder := s'.d.nextOrder) && s'.txs == s.txs[n := s'.txs[n]]
    ensures NextLock(s.txs[n]).Some? ==> forall m :: m in s.txs && m != n ==>
      NextLock(s.txs[n]).value !in Held(s.txs[m])
  {
    hide Runs, NextLock, Held;
  }

  /* commits and single-statement writes */

  lemma CommittedOk(d: Data, fleet: Fleet, t: Tx)
    requires DataOk(d, fleet) && Facts(d, fleet, t) && FreshTx(d, t) && Ready(t)
    ensures DataOk(Committed(d, t), fleet) && Effect(d, Committed(d, t), Held(t), fleet)
  {
    FactsOf(d, fleet, t);
    hide Facts, Committed, Effect, DeployFacts, StartFacts, ImportFacts, EditFacts, Held, FreshTx;
    match t
    case DeployTx(x) =>
      InsertedKeepsFences(d, fleet, x) by { hide DataOk; }
      InsertedKeyed(d, fleet, x);
      InsertedEffect(d, fleet, x) by { hide DataOk; }
      InsertedIntents(d, x);
      hide Keyed, Fences;
    case StartTx(x) => hide DataOk; StartedOk(d, fleet, x);
    case ImportTx(x) => hide DataOk; ImportedOk(d, fleet, x);
    case EditTx(x) => hide DataOk; EditedOk(d, fleet, x);
  }

  lemma InsertedIntents(d: Data, x: Deploying)
    ensures Committed(d, DeployTx(x)).intents == d.intents
  {
  }

  /** Another transaction's freshness survives a commit. */
  lemma CommitFresh(d: Data, fleet: Fleet, t: Tx, u: Tx)
    requires DataOk(d, fleet) && Facts(d, fleet, t) && FreshTx(d, t) && Facts(d, fleet, u) && FreshTx(d, u) && Ready(t)
    requires Disjoint(t, u)
    ensures FreshTx(Committed(d, t), u)
  {
    FactsOf(d, fleet, t);
    FactsOf(d, fleet, u);
    hide DataOk, Facts;
    match t
    case DeployTx(x) => if u.DeployTx? { DeployCommitFresh(d, fleet, x, u.deploying); }
    case StartTx(x) => if u.DeployTx? { StartCommitFresh(d, fleet, x, u.deploying); }
    case ImportTx(x) => ImportCommitFresh(d, x, u);
    case EditTx(x) => EditCommits(d, fleet, x); hide Atomic, EditChange, EditFacts;
      EditCommitFresh(d, Committed(d, t), x.edit, u);
  }

  lemma EditCommitFresh(d: Data, d': Data, e: Edit, u: Tx)
    requires EditChange(d, d', e) && FreshTx(d, u)
    ensures FreshTx(d', u)
  {
    hide KeyedIntents, KeyedVolumes, L.OtherIntentsKept;
  }

  lemma ImportCommitFresh(d: Data, x: Importing, u: Tx)
    requires FreshTx(d, u) && Disjoint(ImportTx(x), u)
    ensures FreshTx(Committed(d, ImportTx(x)), u)
  {
    hide Held;
  }

  lemma DeployCommitFresh(d: Data, fleet: Fleet, x: Deploying, y: Deploying)
    requires DeployFacts(d, fleet, x) && x.at == 10 && FreshTx(d, DeployTx(x)) && FreshTx(d, DeployTx(y))
    requires DeployFacts(d, fleet, y)
    requires Disjoint(DeployTx(x), DeployTx(y))
    ensures FreshTx(Committed(d, DeployTx(x)), DeployTx(y))
  {
    if y.at >= 10 {
      assert AircraftLifecycle(x.row.aircraft) in Held(DeployTx(x)) &&
          AircraftLifecycle(y.row.aircraft) in Held(DeployTx(y));
    }
    assert x.dep.command.aircraft == x.row.aircraft && d.flights[x.dep.command.flight] == x.row;
    hide Held, DeployFacts, CommandBound;
  }

  lemma StartCommitFresh(d: Data, fleet: Fleet, x: Starting, y: Deploying)
    requires StartFacts(d, x) && x.at == 8 && FreshTx(d, DeployTx(y))
    ensures FreshTx(Committed(d, StartTx(x)), DeployTx(y))
  {
    assert d.flights[x.flight.id].aircraft == x.flight.aircraft;
    hide NoOtherFlying, TopActive, MissionIsCurrent, NoneHolds, NewestServes;
  }

  lemma CommitKeeps(fleet: Fleet, s: Pg, n: nat, heard: bool, s': Pg)
    requires StoreInv(fleet, s) && PgNext(fleet, s, Commit(n, heard), s')
    ensures StoreInv(fleet, s') && OnlyAdvances(s.d, s'.d)
  {
    CommitShape(fleet, s, n, heard, s');
    hide *;
    var t := s.txs[n];
    StoreTx(fleet, s, n);
    DataBound(s.d, fleet);
    CommittedOk(s.d, fleet, t);
    EffectAdvances(s.d, s'.d, Held(t), fleet);
    forall m | m in s'.txs ensures Facts(s'.d, fleet, s'.txs[m]) && FreshTx(s'.d, s'.txs[m]) {
      StoreTx(fleet, s, m);
      StorePair(fleet, s, n, m);
      CommitFresh(s.d, fleet, t, s.txs[m]);
      FactsKept(s.d, s'.d, Held(t), fleet, s.txs[m]);
    }
    forall a, b | a in s'.txs && b in s'.txs && a != b ensures Disjoint(s'.txs[a], s'.txs[b]) {
      StorePair(fleet, s, a, b);
    }
    StoreMade(fleet, s');
  }

  lemma CommitShape(fleet: Fleet, s: Pg, n: nat, heard: bool, s': Pg)
    requires PgNext(fleet, s, Commit(n, heard), s')
    ensures n in s.txs && Ready(s.txs[n]) && s'.d == Committed(s.d, s.txs[n]) && s'.txs == s.txs - {n}
    ensures s'.calls == Told(s.calls, s.txs[n], AfterCommit(s.txs[n], heard)) && s'.sent == s.sent
  {
    hide Committed, Ready, Told, AfterCommit;
  }

  /** A transaction that ends without a trace leaves the others as they were. */
  lemma ClosedKeeps(fleet: Fleet, s: Pg, n: nat, s': Pg)
    requires StoreInv(fleet, s) && s'.d == s.d && s'.txs == s.txs - {n}
    ensures StoreInv(fleet, s')
  {
    hide DataOk, TxOk, Disjoint;
  }

  lemma OpenKeeps(fleet: Fleet, s: Pg, n: nat, t: Tx, s': Pg)
    requires PgInv(fleet, s) && PgNext(fleet, s, Open(n, t), s')
    ensures StoreInv(fleet, s') && s'.d == s.d && s'.calls == s.calls && s'.sent == s.sent
  {
    OpenShape(fleet, s, n, t, s');
    hide *;
    PgParts(fleet, s);
    StoreData(fleet, s);
    forall m | m in s'.txs ensures Facts(s'.d, fleet, s'.txs[m]) && FreshTx(s'.d, s'.txs[m]) {
      if m != n { StoreTx(fleet, s, m); } else { OpenedOk(s, fleet, t); }
    }
    forall a, b | a in s'.txs && b in s'.txs && a != b ensures Disjoint(s'.txs[a], s'.txs[b]) {
      if a == n || b == n {
        OpenedDisjoint(s, fleet, t, if a == n then b else a);
      } else {
        StorePair(fleet, s, a, b);
      }
    }
    StoreMade(fleet, s');
  }

  lemma PgParts(fleet: Fleet, s: Pg)
    requires PgInv(fleet, s)
    ensures StoreInv(fleet, s) && ClientsOk(s.d, fleet, s.calls, s.sent)
  {
    hide StoreInv, ClientsOk;
  }

  lemma OpenShape(fleet: Fleet, s: Pg, n: nat, t: Tx, s': Pg)
    requires PgNext(fleet, s, Open(n, t), s')
    ensures n !in s.txs && MayOpen(s, fleet, t) && s'.txs == s.txs[n := t]
    ensures s'.d == s.d && s'.calls == s.calls && s'.sent == s.sent
  {
    hide MayOpen;
  }

  lemma OpenedOk(s: Pg, fleet: Fleet, t: Tx)
    requires MayOpen(s, fleet, t) && ClientsOk(s.d, fleet, s.calls, s.sent)
    ensures Facts(s.d, fleet, t) && FreshTx(s.d, t)
  {
    if t.DeployTx? {
      assert CallOk(s.d, fleet, s.calls[t.deploying.caller]);
    }
    hide CommandBound;
  }

  lemma OpenedDisjoint(s: Pg, fleet: Fleet, t: Tx, m: nat)
    requires MayOpen(s, fleet, t) && m in s.txs
    ensures Disjoint(t, s.txs[m]) && Disjoint(s.txs[m], t)
  {
    hide CommandBound;
    assert Held(t) == {};
    hide Held;
  }

  /* the deployment calls */

  lemma ClientsEvolve(d: Data, d': Data, fleet: Fleet, calls: map<nat, Call>, sent: seq<Id>)
    requires ClientsOk(d, fleet, calls, sent) && OnlyAdvances(d, d')
    ensures ClientsOk(d', fleet, calls, sent)
  {
    forall n | n in calls ensures CallOk(d', fleet, calls[n]) {
      CallStaysOk(d, d', fleet, calls[n]) by { hide CallOk, O.SentOk, DeploymentsEvolve, BindingsKept; }
    }
    forall id | id in sent ensures O.Marked(d', id) {
      assert O.Marked(d, id);
      hide CallOk, BindingsKept;
    }
    hide CallOk, O.Marked, OnlyAdvances;
  }

  lemma ClientMoved(d: Data, fleet: Fleet, calls: map<nat, Call>, sent: seq<Id>, n: nat, call: Call)
    requires ClientsOk(d, fleet, calls, sent) && CallOk(d, fleet, call)
    ensures ClientsOk(d, fleet, calls[n := call], sent)
  {
    hide CallOk, O.SentOk;
  }

  lemma ToldOk(d: Data, fleet: Fleet, calls: map<nat, Call>, sent: seq<Id>, t: Tx, answer: Call)
    requires ClientsOk(d, fleet, calls, sent)
    requires t.DeployTx? && CallOk(d, fleet, Planning(t.deploying.dep)) ==> CallOk(d, fleet, answer)
    ensures ClientsOk(d, fleet, Told(calls, t, answer), sent)
  {
    hide CallOk, O.SentOk;
  }

  /** The record an admission answers its call with is the stored one. */
  lemma CommitAnswers(d: Data, fleet: Fleet, t: Tx, heard: bool)
    requires t.DeployTx? && CallOk(Committed(d, t), fleet, Planning(t.deploying.dep))
    ensures CallOk(Committed(d, t), fleet, AfterCommit(t, heard))
  {
    hide CommandBound;
  }

  /** The record a replay answers its call with is the stored one or an earlier outstanding state of it. */
  lemma ReplayAnswers(d: Data, fleet: Fleet, x: Deploying)
    requires DeployFacts(d, fleet, x) && Replayed(d, x).Some?
    ensures CallOk(d, fleet, AfterAdmission(x.dep, DeploymentOk(Replayed(d, x).value)))
  {
    hide CommandBound, FlightBindingCurrent, AircraftFlying, MissionIsCurrent, NoneHolds, RowRead;
  }

  lemma AnswerKeeps(fleet: Fleet, s: Pg, n: nat, s': Pg)
    requires PgInv(fleet, s) && PgNext(fleet, s, AnswerReplay(n), s')
    ensures PgInv(fleet, s') && s'.d == s.d
  {
    AnswerShape(fleet, s, n, s');
    hide *;
    PgParts(fleet, s);
    var t := s.txs[n];
    StoreTx(fleet, s, n);
    FactsOf(s.d, fleet, t);
    ReplayAnswers(s.d, fleet, t.deploying);
    ToldOk(s.d, fleet, s.calls, s.sent, t,
      AfterAdmission(t.deploying.dep, DeploymentOk(Replayed(s.d, t.deploying).value)));
    ClosedKeeps(fleet, s, n, s');
    PgMade(fleet, s');
  }

  lemma AnswerShape(fleet: Fleet, s: Pg, n: nat, s': Pg)
    requires PgNext(fleet, s, AnswerReplay(n), s')
    ensures n in s.txs && s.txs[n].DeployTx? && Replayed(s.d, s.txs[n].deploying).Some?
    ensures s'.d == s.d && s'.txs == s.txs - {n} && s'.sent == s.sent
    ensures var x := s.txs[n].deploying;
      s'.calls == Told(s.calls, s.txs[n], AfterAdmission(x.dep, DeploymentOk(Replayed(s.d, x).value)))
  {
    hide Told, AfterAdmission, Replayed;
  }

  lemma PgMade(fleet: Fleet, s: Pg)
    requires StoreInv(fleet, s) && ClientsOk(s.d, fleet, s.calls, s.sent)
    ensures PgInv(fleet, s)
  {
    hide StoreInv, ClientsOk;
  }

  lemma AbortKeeps(fleet: Fleet, s: Pg, n: nat, s': Pg)
    requires PgInv(fleet, s) && PgNext(fleet, s, Abort(n), s')
    ensures PgInv(fleet, s') && s'.d == s.d
  {
    assert n in s.txs && s' == s.(txs := s.txs - {n}, calls := Told(s.calls, s.txs[n], Abandoned))
        by { hide PgInv, Told; }
    hide *;
    PgParts(fleet, s);
    O.OverOk(s.d, fleet, Abandoned) by { EndedOver(); }
    ToldOk(s.d, fleet, s.calls, s.sent, s.txs[n], Abandoned);
    ClosedKeeps(fleet, s, n, s');
    PgMade(fleet, s');
  }

  lemma EndedOver()
    ensures O.Over(Abandoned)
  {
  }

  lemma BeginKeeps(fleet: Fleet, s: Pg, n: nat, m: Mission, ids: Fresh, key: Id, now: int, s': Pg)
    requires PgInv(fleet, s) && PgNext(fleet, s, BeginCall(n, m, ids, key, now), s')
    ensures PgInv(fleet, s') && s'.d == s.d
  {
    assert O.MayBegin(s.d, fleet, m) by { hide PgInv; }
    var f := s.d.flights[m.flight];
    assert s' == s.(calls := s.calls[n := Planning(NewDeployment(m, f, fleet[f.aircraft], ids, key, now))])
        by { hide PgInv, NewDeployment; }
    PgParts(fleet, s);
    StoreData(fleet, s);
    assert MissionsBound(s.d) && KeyedFlights(s.d.flights) by { hide PgInv; }
    hide PgInv, PgNext;
    CallBegun(s.d, fleet, m, ids, key, now) by { hide StoreInv, DataOk, MissionsBound; }
    hide *;
    ClientMoved(s.d, fleet, s.calls, s.sent, n, Planning(NewDeployment(m, f, fleet[f.aircraft], ids, key, now)));
    SameStore(fleet, s, s');
    PgMade(fleet, s');
  }

  lemma CallBegun(d: Data, fleet: Fleet, m: Mission, ids: Fresh, key: Id, now: int)
    requires MissionsBound(d) && KeyedFlights(d.flights) && O.MayBegin(d, fleet, m)
    ensures var f := d.flights[m.flight];
      CallOk(d, fleet, Planning(NewDeployment(m, f, fleet[f.aircraft], ids, key, now)))
  {
  }

  lemma SameStore(fleet: Fleet, s: Pg, s': Pg)
    requires StoreInv(fleet, s) && s'.d == s.d && s'.txs == s.txs
    ensures StoreInv(fleet, s')
  {
    hide DataOk, TxOk, Disjoint;
  }

  /** The data after a status write of one record. */
  function Rewritten(d: Data, stored: Deployment): Data {
    d.(deployments := d.deployments[stored.command.deployment := stored])
  }

  /** The compare-and-swap of a call goes through only on the very record it read, still outstanding, and moves it
      forward: what the SQL update does not check follows from the snapshot. */
  lemma SwapRewrites(d: Data, d': Data, base: Deployment, written: Deployment, ok: bool)
    requires Tracked(d, base) && O.WritesOn(base, written) && Swaps(d, d', base, written, ok)
    ensures d' == d || (Rewrites(d, WithRevision(written, base)) && d' == Rewritten(d, WithRevision(written, base)))
  {
    SwapReplacesSnapshot(d, d', base, written, ok);
    hide Swaps;
  }

  lemma CallWrites(d: Data, fleet: Fleet, call: Call, sent: seq<Id>, e: Event, d': Data, call': Call, sent': seq<Id>)
    requires CallOk(d, fleet, call) && !O.Admits(call, e) && Advances(d, call, sent, e, d', call', sent')
    ensures d' == d || exists stored :: Rewrites(d, stored) && d' == Rewritten(d, stored)
  {
    hide *;
    O.AdvanceKinds(d, fleet, call, sent, e, d', call', sent');
    var p := O.Proposal(call, e);
    if p.Some? {
      var ok :| Swaps(d, d', p.value.0, p.value.1, ok);
      SwapRewrites(d, d', p.value.0, p.value.1, ok);
    }
  }

  lemma CallStays(d: Data, fleet: Fleet, call: Call, sent: seq<Id>, e: Event, d': Data, call': Call, sent': seq<Id>)
    requires CallOk(d, fleet, call) && !O.Admits(call, e) && Advances(d, call, sent, e, d', call', sent')
    ensures CallOk(d', fleet, call')
  {
    hide *;
    if O.Over(call') {
      O.OverOk(d', fleet, call');
    } else {
      PlanningEnds(d, call, sent, e, d', call', sent');
      O.PhaseOk(d, fleet, call, sent, e, d', call', sent');
    }
  }

  lemma PlanningEnds(d: Data, call: Call, sent: seq<Id>, e: Event, d': Data, call': Call, sent': seq<Id>)
    requires !O.Admits(call, e) && Advances(d, call, sent, e, d', call', sent')
    ensures !call.Planning? || O.Over(call')
  {
    hide Swaps, CreateDeployment, AfterReply, AfterAdmission;
  }

  lemma StepShape(fleet: Fleet, s: Pg, n: nat, e: Event, s': Pg)
    requires PgNext(fleet, s, StepCall(n, e), s')
    ensures n in s.calls && n in s'.calls && !O.Admits(s.calls[n], e) && s'.txs == s.txs
    ensures s'.calls == s.calls[n := s'.calls[n]] && Advances(s.d, s.calls[n], s.sent, e, s'.d, s'.calls[n], s'.sent)
  {
    hide Advances, O.Admits;
  }

  lemma CallOf(d: Data, fleet: Fleet, calls: map<nat, Call>, sent: seq<Id>, n: nat)
    requires ClientsOk(d, fleet, calls, sent) && n in calls
    ensures CallOk(d, fleet, calls[n]) && O.SentOk(d, sent)
  {
    hide CallOk, O.SentOk;
  }

  lemma ClientsMade(d: Data, fleet: Fleet, calls: map<nat, Call>, sent: seq<Id>, sent': seq<Id>)
    requires ClientsOk(d, fleet, calls, sent) && O.SentOk(d, sent')
    ensures ClientsOk(d, fleet, calls, sent')
  {
    hide O.CallsOk, O.SentOk;
  }

  lemma StepKeeps(fleet: Fleet, s: Pg, n: nat, e: Event, s': Pg)
    requires PgInv(fleet, s) && PgNext(fleet, s, StepCall(n, e), s')
    ensures PgInv(fleet, s') && OnlyAdvances(s.d, s'.d)
  {
    hide *;
    StepShape(fleet, s, n, e, s');
    PgParts(fleet, s);
    CallOf(s.d, fleet, s.calls, s.sent, n);
    var call, call' := s.calls[n], s'.calls[n];
    CallWrites(s.d, fleet, call, s.sent, e, s'.d, call', s'.sent);
    if s'.d == s.d {
      SameStore(fleet, s, s');
      SameAdvances(s.d);
    } else {
      var stored :| Rewrites(s.d, stored) && s'.d == Rewritten(s.d, stored);
      StoredKeeps(fleet, s, stored, s');
    }
    ClientsEvolve(s.d, s'.d, fleet, s.calls, s.sent);
    CallStays(s.d, fleet, call, s.sent, e, s'.d, call', s'.sent);
    ClientMoved(s'.d, fleet, s.calls, s.sent, n, call');
    CallOf(s'.d, fleet, s'.calls, s.sent, n);
    O.AdvanceSentOk(s.d, fleet, call, s.sent, e, s'.d, call', s'.sent);
    ClientsMade(s'.d, fleet, s'.calls, s.sent, s'.sent);
    PgMade(fleet, s');
  }

  lemma SameAdvances(d: Data)
    ensures OnlyAdvances(d, d)
  {
  }

  lemma StoredKeeps(fleet: Fleet, s: Pg, stored: Deployment, s': Pg)
    requires StoreInv(fleet, s) && Rewrites(s.d, stored) && s'.d == Rewritten(s.d, stored) && s'.txs == s.txs
    ensures StoreInv(fleet, s') && OnlyAdvances(s.d, s'.d)
  {
    hide *;
    StoreData(fleet, s);
    DataBound(s.d, fleet);
    WrittenDataOk(s.d, fleet, stored);
    WrittenEffect(s.d, fleet, stored);
    EffectAdvances(s.d, s'.d, {}, fleet);
    forall m | m in s'.txs ensures Facts(s'.d, fleet, s'.txs[m]) && FreshTx(s'.d, s'.txs[m]) {
      StoreTx(fleet, s, m);
      NoLocks(s.txs[m]);
      FactsKept(s.d, s'.d, {}, fleet, s.txs[m]);
      WrittenFresh(s.d, stored, s.txs[m]);
    }
    forall a, b | a in s'.txs && b in s'.txs && a != b ensures Disjoint(s'.txs[a], s'.txs[b]) {
      StorePair(fleet, s, a, b);
    }
    StoreMade(fleet, s');
  }

  lemma NoLocks(t: Tx)
    ensures Held(t) !! {}
  {
  }

  ghost predicate Rewrites(d: Data, stored: Deployment) {
    var id := stored.command.deployment;
    id in d.deployments && Outstanding(d.deployments[id].status) && stored.command == d.deployments[id].command
    && RecordEvolves(d.deployments[id], stored)
  }

  lemma WrittenDataOk(d: Data, fleet: Fleet, stored: Deployment)
    requires DataOk(d, fleet) && Rewrites(d, stored)
    ensures DataOk(Rewritten(d, stored), fleet)
  {
    hide L.OneActive;
    DeploymentRowKeyed(d, stored) by { hide Fences; }
    hide Keyed, Fences;
    DeploymentWrittenKeepsFences(d, stored.command.deployment, stored, fleet);
  }

  lemma DeploymentRowKeyed(d: Data, stored: Deployment)
    requires Keyed(d) && Rewrites(d, stored)
    ensures Keyed(Rewritten(d, stored))
  {
    var deployments := d.deployments[stored.command.deployment := stored];
    assert KeyedDeployments(deployments, d.deploymentByKey) && deployments.Keys == d.deployments.Keys;
    hide KeyedIntents, KeyedVolumes, KeyedFlights, KeyedMissions, KeyedDeployments, KeyedOrder, KeyedPublications,
        KeyedNotifications;
  }

  lemma WrittenEffect(d: Data, fleet: Fleet, stored: Deployment)
    requires Rewrites(d, stored) && d.creationOrder.Keys == d.deployments.Keys
    ensures Effect(d, Rewritten(d, stored), {}, fleet)
  {
  }

  lemma WrittenFresh(d: Data, stored: Deployment, t: Tx)
    requires Rewrites(d, stored) && FreshTx(d, t)
    ensures FreshTx(Rewritten(d, stored), t)
  {
  }

  lemma InsertFlightKeeps(fleet: Fleet, s: Pg, f: Flight, s': Pg)
    requires StoreInv(fleet, s) && PgNext(fleet, s, InsertFlight(f), s')
    ensures StoreInv(fleet, s') && OnlyAdvances(s.d, s'.d)
  {
    FlightShape(fleet, s, f, s');
    hide *;
    StoreData(fleet, s);
    DataBound(s.d, fleet);
    InsertedFlightOk(s.d, fleet, f);
    EffectAdvances(s.d, s'.d, {}, fleet);
    forall m | m in s'.txs ensures Facts(s'.d, fleet, s'.txs[m]) && FreshTx(s'.d, s'.txs[m]) {
      StoreTx(fleet, s, m);
      FlightFresh(s.d, fleet, f, s.txs[m]);
      FactsKept(s.d, s'.d, {}, fleet, s.txs[m]);
    }
    forall a, b | a in s'.txs && b in s'.txs && a != b ensures Disjoint(s'.txs[a], s'.txs[b]) {
      StorePair(fleet, s, a, b);
    }
    StoreMade(fleet, s');
  }

  lemma FlightShape(fleet: Fleet, s: Pg, f: Flight, s': Pg)
    requires PgNext(fleet, s, InsertFlight(f), s')
    ensures s'.calls == s.calls && s'.sent == s.sent
    ensures f.id !in s.d.flights && f.status.Planned? && s' == s.(d := s.d.(flights := s.d.flights[f.id := f]))
  {
  }

  lemma InsertedFlightOk(d: Data, fleet: Fleet, f: Flight)
    requires DataOk(d, fleet) && f.id !in d.flights && f.status.Planned?
    ensures DataOk(d.(flights := d.flights[f.id := f]), fleet)
    ensures Effect(d, d.(flights := d.flights[f.id := f]), {}, fleet)
  {
    var d' := d.(flights := d.flights[f.id := f]);
    DataBound(d, fleet);
    FlightEffectOfInsert(d, fleet, f);
    FlightWriteKeyed(d, f) by { hide Fences; }
    FlightCreatedKeepsFences(d, f, fleet) by { hide Keyed; }
    hide Keyed, Fences, Effect, L.OneActive;
  }

  lemma FlightEffectOfInsert(d: Data, fleet: Fleet, f: Flight)
    requires d.creationOrder.Keys == d.deployments.Keys && f.id !in d.flights && f.status.Planned?
    ensures Effect(d, d.(flights := d.flights[f.id := f]), {}, fleet)
  {
  }

  lemma FlightFresh(d: Data, fleet: Fleet, f: Flight, t: Tx)
    requires DeploymentsBound(d, fleet) && f.id !in d.flights && FreshTx(d, t)
    ensures FreshTx(d.(flights := d.flights[f.id := f]), t)
  {
  }

  lemma PgNextKeeps(fleet: Fleet, s: Pg, step: PgStep, s': Pg)
    requires PgInv(fleet, s) && PgNext(fleet, s, step, s')
    ensures PgInv(fleet, s') && OnlyAdvances(s.d, s'.d)
  {
    hide *;
    SameAdvances(s.d);
    match step
    case Open(n, t) => OpenKeeps(fleet, s, n, t, s'); OpenedClients(fleet, s, s');
    case Abort(n) => AbortKeeps(fleet, s, n, s');
    case AnswerReplay(n) => AnswerKeeps(fleet, s, n, s');
    case BeginCall(n, m, ids, key, now) => BeginKeeps(fleet, s, n, m, ids, key, now, s');
    case StepCall(n, e) => StepKeeps(fleet, s, n, e, s');
    case Statement(n) => PgParts(fleet, s); StatementKeeps(fleet, s, n, s'); StatementClients(fleet, s, n, s');
    case InsertFlight(f) => PgParts(fleet, s); InsertFlightKeeps(fleet, s, f, s'); FlightClients(fleet, s, f, s');
    case Commit(n, heard) => PgParts(fleet, s); CommitKeeps(fleet, s, n, heard, s');
      CommitClients(fleet, s, n, heard, s');
  }

  lemma OpenedClients(fleet: Fleet, s: Pg, s': Pg)
    requires PgInv(fleet, s) && StoreInv(fleet, s') && s'.d == s.d && s'.calls == s.calls && s'.sent == s.sent
    ensures PgInv(fleet, s')
  {
    hide StoreInv, ClientsOk;
  }

  lemma StatementClients(fleet: Fleet, s: Pg, n: nat, s': Pg)
    requires PgInv(fleet, s) && PgNext(fleet, s, Statement(n), s') && StoreInv(fleet, s') && OnlyAdvances(s.d, s'.d)
    ensures PgInv(fleet, s')
  {
    assert s'.calls == s.calls && s'.sent == s.sent by { hide PgInv, StoreInv, OnlyAdvances, Runs, NextLock, Held; }
    hide *;
    PgParts(fleet, s);
    ClientsEvolve(s.d, s'.d, fleet, s.calls, s.sent);
    PgMade(fleet, s');
  }

  lemma FlightClients(fleet: Fleet, s: Pg, f: Flight, s': Pg)
    requires PgInv(fleet, s) && PgNext(fleet, s, InsertFlight(f), s') && StoreInv(fleet, s') && OnlyAdvances(s.d, s'.d)
    ensures PgInv(fleet, s')
  {
    FlightShape(fleet, s, f, s');
    hide *;
    PgParts(fleet, s);
    ClientsEvolve(s.d, s'.d, fleet, s.calls, s.sent);
    PgMade(fleet, s');
  }

  lemma CommitClients(fleet: Fleet, s: Pg, n: nat, heard: bool, s': Pg)
    requires PgInv(fleet, s) && PgNext(fleet, s, Commit(n, heard), s') && StoreInv(fleet, s') && OnlyAdvances(s.d, s'.d)
    ensures PgInv(fleet, s')
  {
    CommitShape(fleet, s, n, heard, s');
    hide *;
    PgParts(fleet, s);
    ClientsEvolve(s.d, s'.d, fleet, s.calls, s.sent);
    var t := s.txs[n];
    if t.DeployTx? && CallOk(s'.d, fleet, Planning(t.deploying.dep)) {
      CommitAnswers(s.d, fleet, t, heard);
    }
    ToldOk(s'.d, fleet, s.calls, s.sent, t, AfterCommit(t, heard));
    PgMade(fleet, s');
  }

  ghost predicate PgFollows(fleet: Fleet, s: Pg, s': Pg) { exists step :: PgNext(fleet, s, step, s') }

  ghost predicate IsPgRun(fleet: Fleet, run: seq<Pg>) {
    |run| > 0 && run[0] == PG_START && forall k :: 0 <= k < |run| - 1 ==> PgFollows(fleet, run[k], run[k + 1])
  }

  lemma {:induction false} PgRunInv(fleet: Fleet, run: seq<Pg>, k: nat)
    requires IsPgRun(fleet, run) && k < |run|
    ensures PgInv(fleet, run[k])
  {
    hide *;
    if k == 0 {
      PgStart(fleet, run);
    } else {
      PgRunInv(fleet, run, k - 1);
      PgFollowsAt(fleet, run, k - 1);
      PgFollowsKeeps(fleet, run[k - 1], run[k]);
    }
  }

  lemma PgStart(fleet: Fleet, run: seq<Pg>)
    requires IsPgRun(fleet, run)
    ensures PgInv(fleet, run[0])
  {
    hide PgFollows;
  }

  lemma PgFollowsAt(fleet: Fleet, run: seq<Pg>, k: nat)
    requires IsPgRun(fleet, run) && k + 1 < |run|
    ensures PgFollows(fleet, run[k], run[k + 1])
  {
    hide PgFollows;
  }

  lemma PgFollowsKeeps(fleet: Fleet, s: Pg, s': Pg)
    requires PgInv(fleet, s) && PgFollows(fleet, s, s')
    ensures PgInv(fleet, s') && OnlyAdvances(s.d, s'.d)
  {
    hide PgInv, PgNext, OnlyAdvances;
    var step :| PgNext(fleet, s, step, s');
    PgNextKeeps(fleet, s, step, s');
  }

  /** Under every interleaving of statements and of the calls' status writes, the committed data keeps the aircraft,
      mission and intent fences, no two open transactions hold the same lock, every call's snapshot is of the stored
      record, and only a deployment with a durable marker was sent. */
  lemma InterleavingsKeepFences(fleet: Fleet, run: seq<Pg>, k: nat)
    requires IsPgRun(fleet, run) && k < |run|
    ensures Fences(run[k].d, fleet) && Keyed(run[k].d) && L.OneActive(run[k].d.intents)
    ensures forall m, n :: m in run[k].txs && n in run[k].txs && m != n ==> Held(run[k].txs[m]) !! Held(run[k].txs[n])
    ensures O.CallsOk(run[k].d, fleet, run[k].calls) && O.SentOk(run[k].d, run[k].sent)
  {
    PgRunInv(fleet, run, k);
    forall m, n | m in run[k].txs && n in run[k].txs && m != n ensures Held(run[k].txs[m]) !! Held(run[k].txs[n]) {
      assert Disjoint(run[k].txs[m], run[k].txs[n]);
      hide Held;
    }
    hide Held, Keyed, Fences, L.OneActive, TxOk, Disjoint, IsPgRun, O.CallsOk, O.SentOk;
  }

  /** Between any two moments of a run every committed deployment stays as it is or moves on while its outcome is open:
      a terminal record never changes, although the SQL update does not look at the status. */
  lemma {:induction false} CommittedRecordsAdvance(fleet: Fleet, run: seq<Pg>, i: nat, j: nat, id: Id)
    requires IsPgRun(fleet, run) && i <= j < |run| && id in run[i].d.deployments
    ensures id in run[j].d.deployments && RecordEvolves(run[i].d.deployments[id], run[j].d.deployments[id])
  {
    hide *;
    SameRecord(run[i].d, id);
    if i < j {
      CommittedRecordsAdvance(fleet, run, i, j - 1, id);
      PgRunInv(fleet, run, j - 1);
      PgFollowsAt(fleet, run, j - 1);
      PgFollowsKeeps(fleet, run[j - 1], run[j]);
      RecordAdvances(run[j - 1].d, run[j].d, id);
      RecordEvolvesTransitive(run[i].d.deployments[id], run[j - 1].d.deployments[id], run[j].d.deployments[id]);
    }
  }

  lemma SameRecord(d: Data, id: Id)
    requires id in d.deployments
    ensures RecordEvolves(d.deployments[id], d.deployments[id])
  {
  }

  lemma RecordAdvances(d: Data, d': Data, id: Id)
    requires OnlyAdvances(d, d') && id in d.deployments
    ensures id in d'.deployments && RecordEvolves(d.deployments[id], d'.deployments[id])
  {
    hide RecordEvolves, BindingsKept;
  }

  /** An answered replay is the atomic store's replay at that moment: the same record, which may since have had a status
      write of its own call. */
  lemma ReplayIsAtomic(fleet: Fleet, run: seq<Pg>, k: nat, n: nat)
    requires IsPgRun(fleet, run) && k + 1 < |run| && n in run[k].txs
    requires PgNext(fleet, run[k], AnswerReplay(n), run[k + 1])
    ensures run[k].txs[n].DeployTx? && ReplayedAtomically(run[k].d, run[k].txs[n].deploying)
  {
    PgRunInv(fleet, run, k);
    AnswerShape(fleet, run[k], n, run[k + 1]);
    hide *;
    PgParts(fleet, run[k]);
    StoreTx(fleet, run[k], n);
    FactsOf(run[k].d, fleet, run[k].txs[n]);
    ReplayAtomic(run[k].d, fleet, run[k].txs[n].deploying);
  }

  ghost predicate ReplayedAtomically(d: Data, x: Deploying) {
    var r := CreateDeployment(d, x.dep);
    && Replayed(d, x).Some? && r.0 == d && r.1.DeploymentOk? && RecordEvolves(Replayed(d, x).value, r.1.deployment)
    && r.1.deployment.command == Replayed(d, x).value.command
  }

  lemma ReplayAtomic(d: Data, fleet: Fleet, x: Deploying)
    requires DataOk(d, fleet) && DeployFacts(d, fleet, x) && Replayed(d, x).Some?
    ensures ReplayedAtomically(d, x)
  {
    if x.at == 9 {
      ReplayAdmitted(d, fleet, x);
      OpenReplayAtomic(d, x);
    } else {
      ClosedReplayAtomic(d, x) by { hide DataOk, DeployFacts; }
    }
    hide DataOk, DeployFacts, CreateDeployment, Replayed;
  }

  lemma OpenReplayAtomic(d: Data, x: Deploying)
    requires x.at == 9 && x.replay.Some? && ReplayRead(d, x.dep.command, x.replay.value)
    requires RowRead(d, x.dep.command.flight, x.row)
    requires CommandFits(x.dep.command, x.row) && !NoIntent(d, x.row.intent)
    requires !AdmissionBlocked(d, x.dep.command, x.row, ReplayId(x.replay))
    ensures ReplayedAtomically(d, x)
  {
    hide AdmissionBlocked, NoIntent;
  }

  /** A terminal record is read and answered in one statement. */
  lemma ClosedReplayAtomic(d: Data, x: Deploying)
    requires x.at != 9 && Replayed(d, x).Some?
    ensures ReplayedAtomically(d, x)
  {
    hide AdmissionBlocked, NoIntent;
  }

  lemma ReplayAdmitted(d: Data, fleet: Fleet, x: Deploying)
    requires DeployFacts(d, fleet, x) && x.at == 9
    ensures !AdmissionBlocked(d, x.dep.command, x.row, ReplayId(x.replay)) && !NoIntent(d, x.row.intent)
    ensures CommandFits(x.dep.command, x.row)
  {
    hide CommandBound, AircraftFlying, MissionIsCurrent;
  }

  /** What the atomic store would do in one step at the moment of the commit. */
  ghost predicate DoneAtomically(d: Data, t: Tx, d': Data) {
    match t
    case DeployTx(x) =>
      var r := CreateDeployment(d, x.dep);
      && r.1 == DeploymentOk(x.dep.(revision := 0))
      && d' == r.0.(creationOrder := d.creationOrder[x.dep.command.deployment := x.order], nextOrder := d.nextOrder)
      && (forall id :: OnAircraft(d, id, x.row.aircraft) && id in d.creationOrder ==> d.creationOrder[id] < x.order)
    case StartTx(x) => StartFlight(d, x.flight, Planned) == (d', Done)
    case ImportTx(x) => CreatesMission(d, x.draft, d', MissionOk(x.draft.(version := x.version)))
    case EditTx(x) => Atomic(d, x.edit) == (d', Done)
  }

  /** Every commit of every run takes effect as the atomic operation succeeding at that moment, although its checks
      ran in earlier statements. A deployment's number may leave gaps, but is the largest of its aircraft. */
  lemma CommitsAreAtomic(fleet: Fleet, run: seq<Pg>, k: nat, n: nat, heard: bool)
    requires IsPgRun(fleet, run) && k + 1 < |run| && n in run[k].txs
    requires PgNext(fleet, run[k], Commit(n, heard), run[k + 1])
    ensures DoneAtomically(run[k].d, run[k].txs[n], run[k + 1].d)
  {
    PgRunInv(fleet, run, k);
    var d, t := run[k].d, run[k].txs[n];
    CommitShape(fleet, run[k], n, heard, run[k + 1]);
    hide *;
    PgParts(fleet, run[k]);
    StoreTx(fleet, run[k], n);
    CommitAtomic(d, fleet, t);
  }

  lemma CommitAtomic(d: Data, fleet: Fleet, t: Tx)
    requires DataOk(d, fleet) && Facts(d, fleet, t) && FreshTx(d, t) && Ready(t)
    ensures DoneAtomically(d, t, Committed(d, t))
  {
    FactsOf(d, fleet, t);
    hide DataOk, Facts, DeployFacts, StartFacts, ImportFacts, EditFacts, CreateDeployment, StartFlight, CreatesMission,
        Atomic;
    match t
    case DeployTx(x) => DeployCommits(d, fleet, x);
    case StartTx(x) => StartCommits(d, fleet, x);
    case ImportTx(x) => ImportCommits(d, fleet, x);
    case EditTx(x) => EditCommits(d, fleet, x);
  }
}
