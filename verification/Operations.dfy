/** The service calls as one transition system: any number of them, each working from its own
    snapshots, step the shared store in any order. */
module Operations {
  import opened Domain
  import opened StoreState
  import L = IntentLifecycle
  import opened FleetFences
  import opened DeploymentCalls

  /** Besides the store: the intents and flights some caller has read, the deployment calls in flight, and
      the deployments whose command has reached the agent, in order. */
  datatype World = World(d: Data, seen: set<Intent>, seenFlights: set<Flight>, calls: map<nat, Call>, sent: seq<Id>)

  const START := World(EMPTY, {}, {}, map[], [])

  datatype Step =
    | ReadIntent(intent: Intent)
    | ReadFlight(flight: Flight)
    | NewIntent(intent: Intent)
    | Transition(snapshot: Intent, next: IntentStatus, request: Option<Publication>)
    | Accept(snapshot: Intent, request: Option<Publication>)
    | Activate(snapshot: Intent)
    | Modify(snapshot: Intent, details: Id, volumes: seq<Volume>)
    | AddVolume(snapshot: Intent, volume: Volume)
    | Publish(publications: map<Id, Publication>, notifications: map<NotificationId, Notification>)
    | PlanFlight(snapshot: Intent, planned: Flight)
    | Start(planned: Flight, startedAt: int)
    | Import(mission: Mission)
    | Begin(caller: nat, mission: Mission, ids: Fresh, key: Id, now: int)
    | Advance(caller: nat, event: Event)

  function WithRequest(step: (Data, Outcome), request: Option<Publication>): (Data, Outcome) {
    if request.Some? then AndRequest(step, request.value) else step
  }

  /** The store effect of an intent call that works from the snapshot it read. */
  ghost predicate IntentCall(d: Data, seen: set<Intent>, step: Step, after: Data) {
    match step
    case NewIntent(intent) => intent.version == 1 && intent.status.Draft? && after == CreateIntent(d, intent).0
    case Transition(i, next, request) =>
      i in seen && L.Transitions(i, next) &&
      after == WithRequest(UpdateIntent(d, i.(status := next), i.revision), request).0
    case Accept(i, request) =>
      i in seen && (i.status.Submitted? || i.status.Review?)
      && after == WithRequest(AcceptIntent(d, i.(status := Accepted), i.revision), request).0
    case Activate(i) =>
      i in seen && i.status.Accepted? && after == ActivateIntent(d, i.(status := Active), i.revision).0
    case Modify(i, details, volumes) =>
      i in seen && L.Modifiable(i.status) &&
      after == ReplaceIntent(d, i.version, i.revision, L.Modified(i, details), volumes).0
    case AddVolume(i, volume) =>
      i in seen && i.status.Draft? && volume.intent == i.id && volume.intentVersion == i.version &&
      after == RecordVolume(d, volume).0
    case Publish(publications, notifications) =>
      && KeyedPublications(publications) && KeyedNotifications(notifications)
      && after == d.(publications := publications, notifications := notifications)
    case _ => false
  }

  ghost predicate FleetCall(d: Data, seen: set<Intent>, seenFlights: set<Flight>, step: Step, after: Data) {
    match step
    case PlanFlight(i, f) =>
      && i in seen && L.Effective(i.status) && f.status.Planned?
      && f.aircraft == i.aircraft && f.intent == i.id && f.intentVersion == i.version
      && after == CreateFlight(d, f).0
    case Start(f, startedAt) =>
      && f in seenFlights && f.status.Planned?
      && after == StartFlight(d, f.(status := Flying, startedAt := startedAt), Planned).0
    case Import(mission) => exists r :: CreatesMission(d, mission, after, r)
    case _ => false
  }

  /** The bindings DeployCurrentMission reads before it plans a deployment. */
  ghost predicate MayBegin(d: Data, fleet: Fleet, m: Mission) {
    && m.id in d.missions && d.missions[m.id] == m && m.flight in d.flights
    && d.flights[m.flight].aircraft in fleet
    && var a := fleet[d.flights[m.flight].aircraft]; a.agent != NO_ID && a.operator == m.operator
  }

  ghost predicate Next(fleet: Fleet, w: World, step: Step, w': World) {
    match step
    case ReadIntent(i) => IsLatest(w.d, i) && w' == w.(seen := w.seen + {i})
    case ReadFlight(f) => f.id in w.d.flights && w.d.flights[f.id] == f && w' == w.(seenFlights := w.seenFlights + {f})
    case Begin(n, m, ids, key, now) =>
      && n !in w.calls && MayBegin(w.d, fleet, m)
      && var f := w.d.flights[m.flight];
         w' == w.(calls := w.calls[n := Planning(NewDeployment(m, f, fleet[f.aircraft], ids, key, now))])
    case Advance(n, e) =>
      && n in w.calls && n in w'.calls
      && Advances(w.d, w.calls[n], w.sent, e, w'.d, w'.calls[n], w'.sent)
      && w' == w.(d := w'.d, calls := w.calls[n := w'.calls[n]], sent := w'.sent)
    case _ =>
      && (IntentCall(w.d, w.seen, step, w'.d) || FleetCall(w.d, w.seen, w.seenFlights, step, w'.d))
      && w' == w.(d := w'.d)
  }

  /* ---- the invariant ---- */

  ghost predicate Sound(d: Data, fleet: Fleet) {
    Keyed(d) && L.Lifecycle(d.intents) && Fences(d, fleet)
  }

  ghost predicate Inv(fleet: Fleet, w: World) {
    && Sound(w.d, fleet)
    && SeenOk(w.d, w.seen)
    && SeenFlightsOk(w.d, w.seenFlights)
    && CallsOk(w.d, fleet, w.calls)
    && SentOk(w.d, w.sent)
  }

  /** The stored record is still the one read, or carries a later revision. */
  ghost predicate SeenOk(d: Data, seen: set<Intent>) {
    forall i :: i in seen ==> (i.id, i.version) in d.intents && L.IntentEvolves(i, d.intents[(i.id, i.version)])
  }

  ghost predicate SeenFlightsOk(d: Data, seen: set<Flight>) {
    forall f :: f in seen ==> f.id in d.flights && FlightEvolves(f, d.flights[f.id])
  }

  ghost predicate CallsOk(d: Data, fleet: Fleet, calls: map<nat, Call>) {
    forall n :: n in calls ==> CallOk(d, fleet, calls[n])
  }

  /** The agent only ever received commands whose dispatch marker is durable. */
  ghost predicate SentOk(d: Data, sent: seq<Id>) {
    forall id :: id in sent ==> Marked(d, id)
  }

  ghost predicate Marked(d: Data, id: Id) { id in d.deployments && d.deployments[id].dispatchStarted }

  ghost predicate FencedVolumesKept(d: Data, after: map<VolumeKey, Volume>) {
    forall k :: k in after + d.volumes && IntentFenced(d, k.0) ==>
      k in d.volumes && k in after && after[k] == d.volumes[k]
  }

  /** What every step does to the data: records only move forward, and fenced intents and volumes stay put. */
  ghost predicate Evolves(d: Data, after: Data) {
    && L.IntentsEvolve(d.intents, after.intents)
    && DeploymentsEvolve(d, after)
    && BindingsKept(d, after)
    && FencedIntentsKept(d, after.intents)
    && FencedVolumesKept(d, after.volumes)
  }

  lemma SameDataEvolves(d: Data)
    ensures Evolves(d, d)
  {
  }

  /* ---- intent steps ---- */

  ghost predicate SameFleetSide(d: Data, after: Data) {
    after == d.(intents := after.intents, volumes := after.volumes, publications := after.publications,
                notifications := after.notifications)
  }

  ghost predicate OtherVolumesKept(before: map<VolumeKey, Volume>, after: map<VolumeKey, Volume>, id: Id) {
    forall k :: k in before + after && k.0 != id ==> k in before && k in after && after[k] == before[k]
  }

  lemma FencedKept(d: Data, intents: map<IntentKey, Intent>, volumes: map<VolumeKey, Volume>, id: Id)
    requires !IntentFenced(d, id) && L.OtherIntentsKept(d.intents, intents, id)
    requires OtherVolumesKept(d.volumes, volumes, id)
    ensures FencedIntentsKept(d, intents) && FencedVolumesKept(d, volumes)
  {
  }

  lemma FleetSideKept(d: Data, after: Data)
    requires SameFleetSide(d, after)
    ensures DeploymentsEvolve(d, after) && BindingsKept(d, after)
  {
  }

  lemma KeyedAgain(d: Data, after: Data)
    requires Keyed(d) && SameFleetSide(d, after)
    requires KeyedIntents(after.intents) && KeyedVolumes(after.volumes)
    requires KeyedPublications(after.publications) && KeyedNotifications(after.notifications)
    ensures Keyed(after)
  {
    hide KeyedIntents, KeyedVolumes, KeyedFlights, KeyedMissions, KeyedDeployments, KeyedOrder, KeyedPublications,
        KeyedNotifications;
  }

  /** A write of one unfenced intent, its volumes or the publications beside it. */
  lemma IntentSideSound(d: Data, after: Data, fleet: Fleet, id: Id)
    requires Sound(d, fleet) && SameFleetSide(d, after) && !IntentFenced(d, id)
    requires L.LifecycleStep(d.intents, after.intents, id) && OtherVolumesKept(d.volumes, after.volumes, id)
    requires KeyedVolumes(after.volumes) && KeyedPublications(after.publications)
    requires KeyedNotifications(after.notifications)
    ensures Sound(after, fleet) && Evolves(d, after)
  {
    FencedKept(d, after.intents, after.volumes, id);
    FleetSideKept(d, after);
    KeyedAgain(d, after);
    hide Keyed, Fences, FencedIntentsKept, FencedVolumesKept, DeploymentsEvolve, BindingsKept, IntentFenced,
        OtherVolumesKept;
    IntentChangeKeepsFences(d, after, fleet);
  }

  /** Publication work leaves everything else alone. */
  lemma PublicationSideSound(d: Data, after: Data, fleet: Fleet)
    requires Sound(d, fleet) && SameFleetSide(d, after) && after.intents == d.intents && after.volumes == d.volumes
    requires KeyedPublications(after.publications) && KeyedNotifications(after.notifications)
    ensures Sound(after, fleet) && Evolves(d, after)
  {
    FleetSideKept(d, after);
    KeyedAgain(d, after);
    assert FencedIntentsKept(d, after.intents) && FencedVolumesKept(d, after.volumes) &&
        L.IntentsEvolve(d.intents, after.intents);
    hide Keyed, Fences, FencedIntentsKept, FencedVolumesKept, DeploymentsEvolve, BindingsKept;
    IntentChangeKeepsFences(d, after, fleet);
  }

  /** A write by revision goes through only while the snapshot the caller read is still the newest record. */
  lemma WriteMeansUnchanged(d: Data, seen: set<Intent>, i: Intent)
    requires SeenOk(d, seen) && i in seen && IntentWriteGuard(d, i.id, i.version, i.revision).Done?
    ensures L.IsNewest(d.intents, i) && !IntentFenced(d, i.id)
  {
  }

  lemma {:induction false} WritesStayInScope(stored: map<VolumeKey, Volume>, volumes: seq<Volume>, id: Id, version: int)
    requires InScope(volumes, id, version)
    ensures OtherVolumesKept(stored, WriteVolumes(stored, volumes), id)
  {
    if volumes != [] {
      WritesStayInScope(stored, volumes[..|volumes| - 1], id, version);
    }
  }

  lemma ReplacementStaysInScope(stored: map<VolumeKey, Volume>, volumes: seq<Volume>, id: Id, version: int)
    requires KeyedVolumes(stored) && InScope(volumes, id, version)
    ensures OtherVolumesKept(stored, ReplacedVolumes(stored, id, version, volumes), id)
    ensures KeyedVolumes(ReplacedVolumes(stored, id, version, volumes))
  {
    var kept := map k | k in stored && !(stored[k].intent == id && stored[k].intentVersion == version) :: stored[k];
    WritesStayInScope(kept, volumes, id, version);
    WritesKeepKeys(kept, volumes);
  }

  lemma IntentStepSound(d: Data, after: Data, fleet: Fleet, id: Id)
    requires Sound(d, fleet) && !IntentFenced(d, id) && L.LifecycleStep(d.intents, after.intents, id)
    requires after == d.(intents := after.intents, publications := after.publications)
    requires KeyedPublications(after.publications)
    ensures Sound(after, fleet) && Evolves(d, after)
  {
    assert OtherVolumesKept(d.volumes, after.volumes, id) && KeyedVolumes(after.volumes) &&
        KeyedNotifications(after.notifications);
    hide Sound, Evolves, L.LifecycleStep, OtherVolumesKept;
    IntentSideSound(d, after, fleet, id);
  }

  lemma RequestShape(step: (Data, Outcome), request: Option<Publication>)
    requires KeyedPublications(step.0.publications)
    ensures var after := WithRequest(step, request).0;
      after == step.0.(publications := after.publications) && KeyedPublications(after.publications)
  {
  }

  lemma TransitionSound(d: Data, seen: set<Intent>, i: Intent, next: IntentStatus, request: Option<Publication>,
                        fleet: Fleet)
    requires Sound(d, fleet) && SeenOk(d, seen) && i in seen && L.Transitions(i, next)
    ensures var after := WithRequest(UpdateIntent(d, i.(status := next), i.revision), request).0;
      Sound(after, fleet) && Evolves(d, after)
  {
    SameDataEvolves(d);
    var step := UpdateIntent(d, i.(status := next), i.revision);
    if step.1.Done? {
      WriteMeansUnchanged(d, seen, i);
      L.TransitionKeepsLifecycle(d.intents, i, next);
      assert KeyedPublications(d.publications);
      RequestShape(step, request);
      hide Sound, Evolves, L.LifecycleStep, UpdatedIntents, SeenOk, IntentFenced, WithRequest;
      IntentStepSound(d, WithRequest(step, request).0, fleet, i.id);
    }
  }

  lemma AcceptSound(d: Data, seen: set<Intent>, i: Intent, request: Option<Publication>, fleet: Fleet)
    requires Sound(d, fleet) && SeenOk(d, seen) && i in seen && (i.status.Submitted? || i.status.Review?)
    ensures var after := WithRequest(AcceptIntent(d, i.(status := Accepted), i.revision), request).0;
      Sound(after, fleet) && Evolves(d, after)
  {
    SameDataEvolves(d);
    var step := AcceptIntent(d, i.(status := Accepted), i.revision);
    if step.1.Done? {
      WriteMeansUnchanged(d, seen, i);
      L.AcceptKeepsLifecycle(d.intents, i);
      assert KeyedPublications(d.publications);
      RequestShape(step, request);
      hide Sound, Evolves, L.LifecycleStep, AcceptedIntents, SeenOk, IntentFenced, WithRequest;
      IntentStepSound(d, WithRequest(step, request).0, fleet, i.id);
    }
  }

  lemma ActivateSound(d: Data, seen: set<Intent>, i: Intent, fleet: Fleet)
    requires Sound(d, fleet) && SeenOk(d, seen) && i in seen && i.status.Accepted?
    ensures var after := ActivateIntent(d, i.(status := Active), i.revision).0; Sound(after, fleet) && Evolves(d, after)
  {
    SameDataEvolves(d);
    var step := ActivateIntent(d, i.(status := Active), i.revision);
    if step.1.Done? {
      WriteMeansUnchanged(d, seen, i);
      hide Sound, Evolves, UpdatedIntents, SeenOk, IntentFenced, OtherActive, IntentWriteGuard, CurrentIs, NoIntent,
          L.IsNewest;
      ActivatedSound(d, i, fleet);
    }
  }

  lemma ActivatedSound(d: Data, i: Intent, fleet: Fleet)
    requires Sound(d, fleet) && L.IsNewest(d.intents, i) && !IntentFenced(d, i.id) && i.status.Accepted?
    requires !OtherActive(d, i.(status := Active))
    ensures var after := d.(intents := UpdatedIntents(d.intents, i.(status := Active), i.revision));
      Sound(after, fleet) && Evolves(d, after)
  {
    assert L.Lifecycle(d.intents) && KeyedPublications(d.publications);
    hide Sound, Evolves, L.LifecycleStep, L.Lifecycle, UpdatedIntents, IntentFenced;
    L.ActivateKeepsLifecycle(d.intents, i);
    IntentStepSound(d, d.(intents := UpdatedIntents(d.intents, i.(status := Active), i.revision)), fleet, i.id);
  }

  lemma ModifySound(d: Data, seen: set<Intent>, i: Intent, details: Id, volumes: seq<Volume>, fleet: Fleet)
    requires Sound(d, fleet) && SeenOk(d, seen) && i in seen && L.Modifiable(i.status)
    ensures var after := ReplaceIntent(d, i.version, i.revision, L.Modified(i, details), volumes).0;
      Sound(after, fleet) && Evolves(d, after)
  {
    SameDataEvolves(d);
    var next := L.Modified(i, details);
    var step := ReplaceIntent(d, i.version, i.revision, next, volumes);
    if step.1.Done? {
      WriteMeansUnchanged(d, seen, i);
      hide SeenOk, IntentFenced, Evolves, Sound;
      ReplacementSound(d, i, details, volumes, fleet);
    }
  }

  lemma ReplacementSound(d: Data, i: Intent, details: Id, volumes: seq<Volume>, fleet: Fleet)
    requires Sound(d, fleet) && L.IsNewest(d.intents, i) && !IntentFenced(d, i.id) && L.Modifiable(i.status)
    requires InScope(volumes, i.id, L.Modified(i, details).version)
    ensures var after := d.(intents := ReplacedIntents(d.intents, i.version, i.revision, L.Modified(i, details)),
                            volumes := ReplacedVolumes(d.volumes, i.id, L.Modified(i, details).version, volumes));
      Sound(after, fleet) && Evolves(d, after)
  {
    assert L.Lifecycle(d.intents) && KeyedVolumes(d.volumes) && KeyedPublications(d.publications) &&
        KeyedNotifications(d.notifications);
    hide Sound, Evolves, L.LifecycleStep, L.Lifecycle, ReplacedIntents, ReplacedVolumes, IntentFenced, OtherVolumesKept,
        InScope;
    L.ModifyKeepsLifecycle(d.intents, i, details);
    ReplacementStaysInScope(d.volumes, volumes, i.id, L.Modified(i, details).version);
    var after := d.(intents := ReplacedIntents(d.intents, i.version, i.revision, L.Modified(i, details)),
                    volumes := ReplacedVolumes(d.volumes, i.id, L.Modified(i, details).version, volumes));
    IntentSideSound(d, after, fleet, i.id);
  }

  lemma NewIntentSound(d: Data, intent: Intent, fleet: Fleet)
    requires Sound(d, fleet) && intent.version == 1 && intent.status.Draft?
    ensures var after := CreateIntent(d, intent).0; Sound(after, fleet) && Evolves(d, after)
  {
    SameDataEvolves(d);
    var step := CreateIntent(d, intent);
    if step.1.Done? {
      L.CreateKeepsLifecycle(d.intents, intent);
      assert KeyedPublications(d.publications);
      hide Sound, Evolves, L.LifecycleStep, IntentFenced;
      IntentStepSound(d, step.0, fleet, intent.id);
    }
  }

  lemma VolumeSound(d: Data, volume: Volume, fleet: Fleet)
    requires Sound(d, fleet)
    ensures var after := RecordVolume(d, volume).0; Sound(after, fleet) && Evolves(d, after)
  {
    SameDataEvolves(d);
    var after := RecordVolume(d, volume).0;
    if RecordVolume(d, volume).1.Done? {
      assert OtherVolumesKept(d.volumes, after.volumes, volume.intent) && KeyedVolumes(after.volumes);
      assert L.LifecycleStep(d.intents, after.intents, volume.intent);
      assert KeyedPublications(d.publications) && KeyedNotifications(d.notifications);
      hide Sound, Evolves, L.LifecycleStep, IntentFenced, OtherVolumesKept;
      IntentSideSound(d, after, fleet, volume.intent);
    }
  }

  lemma IntentCallSound(d: Data, seen: set<Intent>, step: Step, after: Data, fleet: Fleet)
    requires Sound(d, fleet) && SeenOk(d, seen) && IntentCall(d, seen, step, after)
    ensures Sound(after, fleet) && Evolves(d, after)
  {
    hide Sound, Evolves, SeenOk, UpdateIntent, AcceptIntent, ActivateIntent, ReplaceIntent, CreateIntent, RecordVolume,
        WithRequest;
    match step
    case NewIntent(intent) => NewIntentSound(d, intent, fleet);
    case Transition(i, next, request) => TransitionSound(d, seen, i, next, request, fleet);
    case Accept(i, request) => AcceptSound(d, seen, i, request, fleet);
    case Activate(i) => ActivateSound(d, seen, i, fleet);
    case Modify(i, details, volumes) => ModifySound(d, seen, i, details, volumes, fleet);
    case AddVolume(i, volume) => VolumeSound(d, volume, fleet);
    case Publish(publications, notifications) => PublicationSideSound(d, after, fleet);
  }

  /* ---- flight, mission and deployment steps ---- */

  lemma SameIntentSideEvolves(d: Data, after: Data)
    requires after.intents == d.intents && after.volumes == d.volumes && DeploymentsEvolve(d, after)
    requires BindingsKept(d, after)
    ensures Evolves(d, after)
  {
  }

  lemma PlanFlightSound(d: Data, f: Flight, fleet: Fleet)
    requires Sound(d, fleet) && f.status.Planned?
    ensures var after := CreateFlight(d, f).0; Sound(after, fleet) && Evolves(d, after)
  {
    SameDataEvolves(d);
    if CreateFlight(d, f).1.Done? {
      var after := d.(flights := d.flights[f.id := f]);
      assert Keyed(after);
      assert BindingsKept(d, after) && DeploymentsEvolve(d, after);
      hide Keyed, Fences, BindingsKept, DeploymentsEvolve, L.Lifecycle, Evolves;
      FlightCreatedKeepsFences(d, f, fleet);
      SameIntentSideEvolves(d, after);
    }
  }

  lemma StartedSound(d: Data, started: Flight, fleet: Fleet)
    requires Sound(d, fleet) && started.id in d.flights && MayStart(d, d.flights[started.id])
    requires started == d.flights[started.id].(status := Flying, startedAt := started.startedAt)
    requires d.flights[started.id].status.Planned?
    ensures var after := d.(flights := d.flights[started.id := started]); Sound(after, fleet) && Evolves(d, after)
  {
    var after := d.(flights := d.flights[started.id := started]);
    FlightWriteKept(d, started);
    assert KeyedFlights(d.flights);
    hide Keyed, Fences, BindingsKept, DeploymentsEvolve, L.Lifecycle, Evolves, MayStart, KeyedFlights;
    FlightStartedKeepsFences(d, started, fleet);
    SameIntentSideEvolves(d, after);
  }

  lemma FlightWriteKept(d: Data, f: Flight)
    requires Keyed(d) && f.id in d.flights && FlightEvolves(d.flights[f.id], f)
    ensures var after := d.(flights := d.flights[f.id := f]);
      Keyed(after) && BindingsKept(d, after) && DeploymentsEvolve(d, after)
  {
    assert KeyedFlights(d.flights[f.id := f]);
    hide KeyedFlights, KeyedIntents, KeyedVolumes, KeyedMissions, KeyedDeployments, KeyedOrder, KeyedPublications,
        KeyedNotifications;
  }

  lemma StartSound(d: Data, seen: set<Flight>, f: Flight, startedAt: int, fleet: Fleet)
    requires Sound(d, fleet) && SeenFlightsOk(d, seen) && f in seen && f.status.Planned?
    ensures var after := StartFlight(d, f.(status := Flying, startedAt := startedAt), Planned).0;
      Sound(after, fleet) && Evolves(d, after)
  {
    SameDataEvolves(d);
    hide Sound, Evolves, MayStart, NoIntent;
    var started := f.(status := Flying, startedAt := startedAt);
    if StartFlight(d, started, Planned).1.Done? {
      assert d.flights[f.id] == f;
      StartedSound(d, started, fleet);
    }
  }

  lemma MissionAddedSound(d: Data, mission: Mission, fleet: Fleet)
    requires Sound(d, fleet) && mission.id !in d.missions && mission.flight in d.flights
    requires d.flights[mission.flight].status.Planned? && MissionFits(mission, d.flights[mission.flight])
    requires !FlightFenced(d, mission.flight) && IsNextVersion(d, mission.flight, mission.version)
    ensures var after := AddMission(d, mission); Sound(after, fleet) && Evolves(d, after)
  {
    var after := AddMission(d, mission);
    AddMissionKeyed(d, mission);
    assert BindingsKept(d, after) && DeploymentsEvolve(d, after);
    hide Keyed, Fences, BindingsKept, DeploymentsEvolve, L.Lifecycle, Evolves, FlightFenced, IsNextVersion;
    MissionAddedKeepsFences(d, mission, fleet);
    SameIntentSideEvolves(d, after);
  }

  lemma ImportSound(d: Data, mission: Mission, after: Data, r: MissionResult, fleet: Fleet)
    requires Sound(d, fleet) && CreatesMission(d, mission, after, r)
    ensures Sound(after, fleet) && Evolves(d, after)
  {
    SameDataEvolves(d);
    FlightKeys(d, fleet);
    hide Sound, Evolves, FlightBindingCurrent, IsNextVersion, NoIntent, FlightFenced;
    if after != d {
      MissionAddedSound(d, r.mission, fleet);
    }
  }

  lemma FlightKeys(d: Data, fleet: Fleet)
    requires Sound(d, fleet)
    ensures forall f :: f in d.flights ==> d.flights[f].id == f
  {
  }

  lemma FleetCallSound(d: Data, seen: set<Intent>, seenFlights: set<Flight>, step: Step, after: Data, fleet: Fleet)
    requires Sound(d, fleet) && SeenFlightsOk(d, seenFlights) && FleetCall(d, seen, seenFlights, step, after)
    ensures Sound(after, fleet) && Evolves(d, after)
  {
    hide Sound, Evolves, SeenFlightsOk, CreatesMission, StartFlight, CreateFlight;
    match step
    case PlanFlight(i, f) => PlanFlightSound(d, f, fleet);
    case Start(f, startedAt) => StartSound(d, seenFlights, f, startedAt, fleet);
    case Import(mission) =>
      var r :| CreatesMission(d, mission, after, r);
      ImportSound(d, mission, after, r, fleet);
  }

  lemma AdmittedSound(d: Data, dep: Deployment, fleet: Fleet)
    requires Sound(d, fleet) && CommandBound(d, fleet, dep.command) && dep.command.deployment !in d.deployments
    requires d.flights[dep.command.flight].status.Planned?
    requires !AdmissionBlocked(d, dep.command, d.flights[dep.command.flight], None)
    ensures var after := AddDeployment(d, dep); Sound(after, fleet) && Evolves(d, after)
  {
    var after := AddDeployment(d, dep);
    AddDeploymentKeyed(d, dep);
    AddDeploymentEvolves(d, dep);
    hide Keyed, Fences, BindingsKept, DeploymentsEvolve, L.Lifecycle, Evolves, AdmissionBlocked, CommandBound;
    DeploymentAddedKeepsFences(d, dep, fleet);
    SameIntentSideEvolves(d, after);
  }

  lemma AddDeploymentEvolves(d: Data, dep: Deployment)
    requires dep.command.deployment !in d.deployments
    ensures var after := AddDeployment(d, dep); BindingsKept(d, after) && DeploymentsEvolve(d, after)
  {
  }

  lemma AdmitSound(d: Data, wanted: Deployment, fleet: Fleet)
    requires Sound(d, fleet) && CommandBound(d, fleet, wanted.command)
    ensures var after := CreateDeployment(d, wanted).0; Sound(after, fleet) && Evolves(d, after)
  {
    SameDataEvolves(d);
    hide Sound, Evolves, NoIntent, AdmissionBlocked, CommandBound, AddDeployment;
    if CreateDeployment(d, wanted).0 != d {
      AdmittedSound(d, wanted.(revision := 0), fleet);
    }
  }

  /** A write of an open snapshot: it may change the outcome and gain evidence, never the command. */
  predicate WritesOn(base: Deployment, written: Deployment) {
    && written.command == base.command && base.attempts <= written.attempts
    && (base.dispatchStarted ==> written.dispatchStarted)
  }

  lemma SwapSound(d: Data, after: Data, base: Deployment, written: Deployment, ok: bool, fleet: Fleet)
    requires Sound(d, fleet) && Tracked(d, base) && WritesOn(base, written) && Swaps(d, after, base, written, ok)
    ensures Sound(after, fleet) && Evolves(d, after)
  {
    SameDataEvolves(d);
    SwapReplacesSnapshot(d, after, base, written, ok);
    hide Sound, Evolves, Swaps;
    if ok {
      WrittenSound(d, WithRevision(written, base), fleet);
    }
  }

  lemma WrittenSound(d: Data, written: Deployment, fleet: Fleet)
    requires Sound(d, fleet) && written.command.deployment in d.deployments
    requires Outstanding(d.deployments[written.command.deployment].status)
    requires WritesOn(d.deployments[written.command.deployment], written)
    requires d.deployments[written.command.deployment].revision < written.revision
    ensures var after := d.(deployments := d.deployments[written.command.deployment := written]);
      Sound(after, fleet) && Evolves(d, after)
  {
    var after := d.(deployments := d.deployments[written.command.deployment := written]);
    DeploymentWriteKeyed(d, written);
    DeploymentWriteEvolves(d, written);
    hide Keyed, Fences, BindingsKept, DeploymentsEvolve, L.Lifecycle, Evolves, KeyedDeployments;
    DeploymentWrittenKeepsFences(d, written.command.deployment, written, fleet);
    SameIntentSideEvolves(d, after);
  }

  lemma DeploymentWriteKeyed(d: Data, written: Deployment)
    requires Keyed(d) && written.command.deployment in d.deployments
    requires written.command == d.deployments[written.command.deployment].command
    ensures Keyed(d.(deployments := d.deployments[written.command.deployment := written]))
  {
    assert KeyedDeployments(d.deployments[written.command.deployment := written], d.deploymentByKey);
    assert d.deployments[written.command.deployment := written].Keys == d.deployments.Keys;
    hide KeyedIntents, KeyedVolumes, KeyedFlights, KeyedMissions, KeyedDeployments, KeyedOrder, KeyedPublications,
        KeyedNotifications;
  }

  lemma DeploymentWriteEvolves(d: Data, written: Deployment)
    requires written.command.deployment in d.deployments
    requires RecordEvolves(d.deployments[written.command.deployment], written)
    ensures var after := d.(deployments := d.deployments[written.command.deployment := written]);
      BindingsKept(d, after) && DeploymentsEvolve(d, after)
  {
  }

  predicate Admits(call: Call, e: Event) { call.Planning? && e.Admit? }

  /** The compare-and-swap a call is about to make: the snapshot it replaces and what it writes. */
  function Proposal(call: Call, e: Event): Option<(Deployment, Deployment)> {
    match (call, e)
    case (ContextFailed(snap), Persist(now, _)) => Some((snap, ContextFailure(snap, now)))
    case (Expiring(snap, expiredAt), Persist(_, _)) => Some((snap, Expiry(snap, expiredAt)))
    case (Dispatching(snap, _, _), Persist(now, _)) => Some((snap, Marker(snap, now)))
    case (Reporting(snap, desired), Persist(_, _)) => Some((snap, desired))
    case _ => None
  }

  /** A call's step admits, swaps on its snapshot, or leaves the data alone. */
  lemma AdvanceKinds(d: Data, fleet: Fleet, call: Call, sent: seq<Id>, e: Event, d': Data, call': Call, sent': seq<Id>)
    requires CallOk(d, fleet, call) && Advances(d, call, sent, e, d', call', sent')
    ensures Admits(call, e) ==> d' == CreateDeployment(d, call.wanted).0
    ensures var p := Proposal(call, e);
      && (p.Some? ==>
         Tracked(d, p.value.0) && WritesOn(p.value.0, p.value.1) && exists ok :: Swaps(d, d', p.value.0, p.value.1, ok))
      && (p.None? && !Admits(call, e) ==> d' == d)
  {
    hide Swaps, Tracked, CreateDeployment;
  }

  lemma AdvanceSound(d: Data, fleet: Fleet, call: Call, sent: seq<Id>, e: Event, d': Data, call': Call, sent': seq<Id>)
    requires Sound(d, fleet) && CallOk(d, fleet, call) && Advances(d, call, sent, e, d', call', sent')
    ensures Sound(d', fleet) && Evolves(d, d')
  {
    SameDataEvolves(d);
    AdvanceKinds(d, fleet, call, sent, e, d', call', sent');
    hide Sound, Evolves, Swaps, Tracked, CreateDeployment, Advances;
    var p := Proposal(call, e);
    if Admits(call, e) {
      AdmitSound(d, call.wanted, fleet);
    } else if p.Some? {
      var ok :| Swaps(d, d', p.value.0, p.value.1, ok);
      SwapSound(d, d', p.value.0, p.value.1, ok, fleet);
    }
  }

  predicate Over(call: Call) { call.Returned? || call.Abandoned? }

  /** The record a call holds next is again a snapshot of the stored one. */
  lemma AdvanceCallOk(d: Data, fleet: Fleet, call: Call, sent: seq<Id>, e: Event, d': Data, call': Call, sent': seq<Id>)
    requires Sound(d, fleet) && CallOk(d, fleet, call) && Advances(d, call, sent, e, d', call', sent')
    ensures CallOk(d', fleet, call')
  {
    hide *;
    if Over(call') {
      OverOk(d', fleet, call');
    } else if call.Planning? {
      PlanningSteps(d, fleet, call, sent, e, d', call', sent');
      SoundDeployments(d, fleet);
      AdmittedOk(d, fleet, call.wanted);
    } else {
      PhaseOk(d, fleet, call, sent, e, d', call', sent');
    }
  }

  lemma OverOk(d: Data, fleet: Fleet, call: Call)
    requires Over(call)
    ensures CallOk(d, fleet, call)
  {
  }

  lemma SoundDeployments(d: Data, fleet: Fleet)
    requires Sound(d, fleet)
    ensures KeyedDeployments(d.deployments, d.deploymentByKey)
  {
    hide Fences, L.Lifecycle;
  }

  /** A planning call is admitted, or ends without an answer, its admission made or not. */
  lemma PlanningSteps(d: Data, fleet: Fleet, call: Call, sent: seq<Id>, e: Event, d': Data, call': Call, sent': seq<Id>)
    requires call.Planning? && CallOk(d, fleet, call) && Advances(d, call, sent, e, d', call', sent')
    ensures CommandBound(d, fleet, call.wanted.command) && sent' == sent
    ensures d' == d || d' == CreateDeployment(d, call.wanted).0
    ensures Over(call') || (d' == CreateDeployment(d, call.wanted).0 &&
      call' == AfterAdmission(call.wanted, CreateDeployment(d, call.wanted).1))
    ensures call'.Returned? ==> call' == AfterAdmission(call.wanted, CreateDeployment(d, call.wanted).1)
  {
    hide CommandBound, CreateDeployment, AfterAdmission;
  }

  lemma PhaseOk(d: Data, fleet: Fleet, call: Call, sent: seq<Id>, e: Event, d': Data, call': Call, sent': seq<Id>)
    requires CallOk(d, fleet, call) && Advances(d, call, sent, e, d', call', sent') && !call.Planning? && !Over(call')
    ensures CallOk(d', fleet, call')
  {
    hide CreateDeployment, Swaps, Tracked, AfterReply, AfterAdmission, RecordEvolves, CommandBound, RecordDispatched;
    match call
    case Dispatching(snap, _, _) => DispatchedOk(d, fleet, call, e.now, d', call');
    case Reporting(snap, desired) => ReportedOk(d, fleet, call, d', call');
    case Rereading(desired, expected) => RereadOk(d, fleet, desired, expected, call');
    case Awaiting(snap) => ReplyKeeps(snap, e.reply, e.items, e.now);
    case _ =>
  }

  lemma DispatchedOk(d: Data, fleet: Fleet, call: Call, now: int, d': Data, call': Call)
    requires call.Dispatching? && Tracked(d, call.snap)
    requires Swaps(d, d', call.snap, Marker(call.snap, now), true)
    requires call' == Sending(WithRevision(Marker(call.snap, now), call.snap))
    ensures CallOk(d', fleet, call')
  {
    SwapReplacesSnapshot(d, d', call.snap, Marker(call.snap, now), true);
    hide Swaps;
  }

  lemma ReportedOk(d: Data, fleet: Fleet, call: Call, d': Data, call': Call)
    requires call.Reporting? && CallOk(d, fleet, call)
    requires Swaps(d, d', call.snap, call.desired, false) && call' == Rereading(call.desired, call.snap.revision)
    ensures CallOk(d', fleet, call')
  {
    SwapReplacesSnapshot(d, d', call.snap, call.desired, false);
    hide Swaps;
  }

  lemma RereadOk(d: Data, fleet: Fleet, desired: Deployment, expected: int, call': Call)
    requires CallOk(d, fleet, Rereading(desired, expected))
    requires call' == AfterReread(d.deployments[desired.command.deployment], desired)
    ensures CallOk(d, fleet, call')
  {
  }

  lemma ReplyKeeps(snap: Deployment, reply: Reply, items: nat, now: int)
    requires snap.dispatchStarted
    ensures ReportsOn(snap, AfterReply(snap, reply, items, now))
  {
  }

  lemma AdmittedOk(d: Data, fleet: Fleet, wanted: Deployment)
    requires KeyedDeployments(d.deployments, d.deploymentByKey)
    ensures var r := CreateDeployment(d, wanted); CallOk(r.0, fleet, AfterAdmission(wanted, r.1))
  {
    hide AdmissionBlocked, NoIntent;
  }

  lemma AdvanceSentOk(d: Data, fleet: Fleet, call: Call, sent: seq<Id>, e: Event, d': Data, call': Call, sent': seq<Id>)
    requires CallOk(d, fleet, call) && Advances(d, call, sent, e, d', call', sent') && SentOk(d', sent)
    ensures SentOk(d', sent')
  {
    if call.Sending? {
      assert Marked(d, call.snap.command.deployment);
    } else {
      assert sent' == sent by { hide Swaps, CreateDeployment, AfterReply, Tracked, SentOk; }
    }
  }

  /* ---- every step and every run ---- */

  lemma SnapshotsKept(fleet: Fleet, w: World, after: Data)
    requires Inv(fleet, w) && Evolves(w.d, after)
    ensures SeenOk(after, w.seen) && SeenFlightsOk(after, w.seenFlights) && CallsOk(after, fleet, w.calls)
    ensures SentOk(after, w.sent)
  {
    hide Sound, CallOk, FencedIntentsKept, FencedVolumesKept;
    forall n | n in w.calls ensures CallOk(after, fleet, w.calls[n]) {
      CallStaysOk(w.d, after, fleet, w.calls[n]);
    }
  }

  lemma BegunOk(d: Data, fleet: Fleet, m: Mission, ids: Fresh, key: Id, now: int)
    requires Sound(d, fleet) && MayBegin(d, fleet, m)
    ensures var f := d.flights[m.flight];
      CallOk(d, fleet, Planning(NewDeployment(m, f, fleet[f.aircraft], ids, key, now)))
  {
    assert MissionsBound(d) && KeyedFlights(d.flights);
    hide Sound;
  }

  lemma DataStep(fleet: Fleet, w: World, step: Step, w': World)
    requires Inv(fleet, w) && Next(fleet, w, step, w')
    ensures Sound(w'.d, fleet) && Evolves(w.d, w'.d)
  {
    SameDataEvolves(w.d);
    hide Sound, Evolves, SeenOk, SeenFlightsOk, SentOk, IntentCall, FleetCall, Advances, CallOk, MayBegin;
    match step
    case ReadIntent(_) =>
    case ReadFlight(_) =>
    case Begin(_, _, _, _, _) =>
    case Advance(n, e) => AdvanceSound(w.d, fleet, w.calls[n], w.sent, e, w'.d, w'.calls[n], w'.sent);
    case _ =>
      if IntentCall(w.d, w.seen, step, w'.d) { IntentCallSound(w.d, w.seen, step, w'.d, fleet); }
      else { FleetCallSound(w.d, w.seen, w.seenFlights, step, w'.d, fleet); }
  }

  lemma NextKeepsInv(fleet: Fleet, w: World, step: Step, w': World)
    requires Inv(fleet, w) && Next(fleet, w, step, w')
    ensures Inv(fleet, w') && Evolves(w.d, w'.d)
  {
    hide *;
    DataStep(fleet, w, step, w');
    SnapshotsKept(fleet, w, w'.d);
    InvParts(fleet, w);
    match step
    case ReadIntent(i) => ReadKeepsInv(fleet, w, step, w');
    case ReadFlight(f) => ReadKeepsInv(fleet, w, step, w');
    case Begin(n, m, ids, key, now) => BeginKeepsInv(fleet, w, n, m, ids, key, now, w');
    case Advance(n, e) => CallAdvanced(fleet, w, n, e, w');
    case _ => OtherKeepsInv(fleet, w, step, w');
  }

  lemma InvParts(fleet: Fleet, w: World)
    requires Inv(fleet, w)
    ensures Sound(w.d, fleet) && SeenOk(w.d, w.seen) && SeenFlightsOk(w.d, w.seenFlights)
    ensures CallsOk(w.d, fleet, w.calls) && SentOk(w.d, w.sent)
  {
    hide Sound, SeenOk, SeenFlightsOk, CallsOk, SentOk;
  }

  lemma ReadKeepsInv(fleet: Fleet, w: World, step: Step, w': World)
    requires (step.ReadIntent? || step.ReadFlight?) && Inv(fleet, w) && Next(fleet, w, step, w')
    ensures Inv(fleet, w')
  {
    hide Sound, SentOk, CallsOk;
    if step.ReadIntent? { hide SeenFlightsOk; } else { hide SeenOk; }
  }

  lemma BeginKeepsInv(fleet: Fleet, w: World, n: nat, m: Mission, ids: Fresh, key: Id, now: int, w': World)
    requires Inv(fleet, w) && Next(fleet, w, Begin(n, m, ids, key, now), w')
    ensures Inv(fleet, w')
  {
    hide SentOk, SeenOk, SeenFlightsOk, CallOk, NewDeployment, Sound, MayBegin;
    BegunOk(w.d, fleet, m, ids, key, now);
  }

  lemma OtherKeepsInv(fleet: Fleet, w: World, step: Step, w': World)
    requires !step.ReadIntent? && !step.ReadFlight? && !step.Begin? && !step.Advance? && Next(fleet, w, step, w')
    requires Sound(w'.d, fleet)
    requires SeenOk(w'.d, w.seen) && SeenFlightsOk(w'.d, w.seenFlights) && CallsOk(w'.d, fleet, w.calls)
    requires SentOk(w'.d, w.sent)
    ensures Inv(fleet, w')
  {
    hide Sound, SentOk, SeenOk, SeenFlightsOk, CallsOk, IntentCall, FleetCall;
  }

  lemma CallAdvanced(fleet: Fleet, w: World, n: nat, e: Event, w': World)
    requires Inv(fleet, w) && Next(fleet, w, Advance(n, e), w') && Sound(w'.d, fleet) && SeenOk(w'.d, w.seen)
    requires SeenFlightsOk(w'.d, w.seenFlights) && CallsOk(w'.d, fleet, w.calls) && SentOk(w'.d, w.sent)
    ensures Inv(fleet, w')
  {
    hide Sound, SentOk, SeenOk, SeenFlightsOk, CallOk, Advances;
    AdvanceCallOk(w.d, fleet, w.calls[n], w.sent, e, w'.d, w'.calls[n], w'.sent);
    AdvanceSentOk(w.d, fleet, w.calls[n], w.sent, e, w'.d, w'.calls[n], w'.sent);
  }

  lemma StartInv(fleet: Fleet)
    ensures Inv(fleet, START)
  {
  }

  /** Consecutive worlds of a run. */
  ghost predicate Steps(fleet: Fleet, run: seq<World>) {
    forall k :: 0 <= k < |run| - 1 ==> Follows(fleet, run[k], run[k + 1])
  }

  ghost predicate Follows(fleet: Fleet, w: World, w': World) { exists step :: Next(fleet, w, step, w') }

  ghost predicate IsRun(fleet: Fleet, run: seq<World>) {
    |run| > 0 && run[0] == START && Steps(fleet, run)
  }

  lemma {:induction false} RunKeepsInv(fleet: Fleet, run: seq<World>, k: nat)
    requires IsRun(fleet, run) && k < |run|
    ensures Inv(fleet, run[k])
  {
    hide *;
    if k == 0 {
      StartInv(fleet);
      RunStarts(fleet, run);
    } else {
      RunKeepsInv(fleet, run, k - 1);
      FollowsAt(fleet, run, k - 1);
      FollowsKeepsInv(fleet, run[k - 1], run[k]);
    }
  }

  lemma RunStarts(fleet: Fleet, run: seq<World>)
    requires IsRun(fleet, run)
    ensures run[0] == START
  {
    hide Steps;
  }

  lemma FollowsAt(fleet: Fleet, run: seq<World>, k: nat)
    requires IsRun(fleet, run) && k + 1 < |run|
    ensures Follows(fleet, run[k], run[k + 1])
  {
    hide Follows;
  }

  lemma FollowsKeepsInv(fleet: Fleet, w: World, w': World)
    requires Inv(fleet, w) && Follows(fleet, w, w')
    ensures Inv(fleet, w') && Evolves(w.d, w'.d)
  {
    hide Inv, Next, Evolves;
    var step :| Next(fleet, w, step, w');
    NextKeepsInv(fleet, w, step, w');
  }
}
