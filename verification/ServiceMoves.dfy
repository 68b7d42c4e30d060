/** The service calls as moves of the whole system: each shifts at most one intent, and requests exactly the external
    state that shift calls for. */
module ServiceMoves {
  import opened Domain
  import opened StoreState
  import opened IntentShifts
  import opened ControlPlane
  import opened ControlPlaneInvariant
  import L = IntentLifecycle
  import F = FleetFences
  import O = Operations
  import D = DeploymentCalls
  import P = PublicationProtocol
  import N = NotificationOutbox

  /** The shift requests its own external state in the same store call. */
  ghost predicate Asked(d: Data, d': Data, after: Intent, desired: ExternalState, now: int) {
    && d'.publications == d.publications[after.id :=
         Requested(StoredPublication(d, after.id), P.PublicationRequest(after.id, after.version, desired, now))]
    && ((desired.AcceptedState? && after.status.Accepted?) || (desired.WithdrawnState? && Over(after.status)))
  }

  ghost predicate ShiftEffect(setup: Setup, publishing: bool, now: int, d: Data, d': Data, before: Option<Intent>,
                              after: Intent) {
    && IntentShift(d.intents, d'.intents, before, after)
    && (|| (d'.publications == d.publications &&
       (after.id in d.publications ==> L.Editable(after.status) || after.status.Active?))
        || (publishing && after.id in setup.canonical && before.Some?
            && exists desired :: Asked(d, d', after, desired, now)))
  }

  ghost predicate ServiceEffect(setup: Setup, publishing: bool, now: int, d: Data, d': Data) {
    && d'.notifications == d.notifications
    && (|| (d'.intents == d.intents && d'.publications == d.publications)
        || exists before, after :: ShiftEffect(setup, publishing, now, d, d', before, after))
  }

  lemma NoEffect(setup: Setup, publishing: bool, now: int, d: Data, d': Data)
    requires d'.intents == d.intents && d'.publications == d.publications && d'.notifications == d.notifications
    ensures ServiceEffect(setup, publishing, now, d, d')
  {
  }

  lemma OneShift(setup: Setup, publishing: bool, now: int, d: Data, d': Data, before: Option<Intent>, after: Intent)
    requires ShiftEffect(setup, publishing, now, d, d', before, after) && d'.notifications == d.notifications
    ensures ServiceEffect(setup, publishing, now, d, d')
  {
  }

  lemma AskedBy(d: Data, step: (Data, Outcome), after: Intent, desired: ExternalState, now: int)
    requires step.1.Done? && step.0.publications == d.publications
    requires (desired.AcceptedState? && after.status.Accepted?) || (desired.WithdrawnState? && Over(after.status))
    ensures Asked(d, O.WithRequest(step, Some(P.PublicationRequest(after.id, after.version, desired, now))).0, after,
      desired, now)
  {
  }

  /** A write of the newest version, with the request of its store call. */
  ghost predicate RequestOf(setup: Setup, publishing: bool, now: int, d: Data, after: Intent,
                            request: Option<Publication>) {
    match request
    case None => after.id in d.publications ==> L.Editable(after.status) || after.status.Active?
    case Some(r) =>
      && publishing && after.id in setup.canonical
      && exists desired :: r == P.PublicationRequest(after.id, after.version, desired, now)
           && ((desired.AcceptedState? && after.status.Accepted?) || (desired.WithdrawnState? && Over(after.status)))
  }

  lemma WrittenEffect(setup: Setup, publishing: bool, now: int, d: Data, step: (Data, Outcome), i: Intent,
                      after: Intent, request: Option<Publication>)
    requires step.1.Done? && step.0 == d.(intents := step.0.intents)
    requires IntentShift(d.intents, step.0.intents, Some(i), after)
    requires RequestOf(setup, publishing, now, d, after, request)
    ensures ServiceEffect(setup, publishing, now, d, O.WithRequest(step, request).0)
  {
    hide IntentShift, ServiceEffect;
    var d' := O.WithRequest(step, request).0;
    if request.Some? {
      var desired :| request.value == P.PublicationRequest(after.id, after.version, desired, now)
                     && ((desired.AcceptedState? && after.status.Accepted?) ||
                        (desired.WithdrawnState? && Over(after.status)));
      AskedBy(d, step, after, desired, now);
    }
    hide Asked;
    assert d'.intents == step.0.intents && d'.notifications == d.notifications;
    OneShift(setup, publishing, now, d, d', Some(i), after);
  }

  lemma RefusedEffect(setup: Setup, publishing: bool, now: int, d: Data, step: (Data, Outcome),
                      request: Option<Publication>)
    requires !step.1.Done? && step.0 == d
    ensures ServiceEffect(setup, publishing, now, d, O.WithRequest(step, request).0)
  {
    hide ServiceEffect;
    NoEffect(setup, publishing, now, d, O.WithRequest(step, request).0);
  }

  lemma UpdateShape(d: Data, intent: Intent, expected: int)
    ensures var step := UpdateIntent(d, intent, expected);
      if step.1.Done? then step.0 == d.(intents := UpdatedIntents(d.intents, intent, expected))
                           && IntentWriteGuard(d, intent.id, intent.version, expected).Done?
      else step.0 == d
  {
    hide UpdatedIntents, IntentWriteGuard;
  }

  lemma AcceptShape(d: Data, intent: Intent, expected: int)
    ensures var step := AcceptIntent(d, intent, expected);
      if step.1.Done? then step.0 == d.(intents := AcceptedIntents(d.intents, intent, expected))
                           && IntentWriteGuard(d, intent.id, intent.version, expected).Done?
      else step.0 == d
  {
    hide AcceptedIntents, IntentWriteGuard;
  }

  lemma TransitionAsks(setup: Setup, s: System, i: Intent, next: IntentStatus, request: Option<Publication>)
    requires L.Transitions(i, next) && Wishes(setup, s.w.d, s.publishing)
    requires RequestsRightly(setup, s, O.Transition(i, next, request))
    ensures RequestOf(setup, s.publishing, s.clock, s.w.d, i.(status := next, revision := i.revision + 1), request)
  {
    hide Tied;
  }

  lemma AcceptanceAsks(setup: Setup, s: System, i: Intent, request: Option<Publication>)
    requires Wishes(setup, s.w.d, s.publishing) && RequestsRightly(setup, s, O.Accept(i, request))
    ensures RequestOf(setup, s.publishing, s.clock, s.w.d, i.(status := Accepted, revision := i.revision + 1), request)
  {
    hide Tied;
  }

  /** Every call of the intent service has this effect. */
  lemma TransitionEffect(setup: Setup, s: System, i: Intent, next: IntentStatus, request: Option<Publication>, d': Data)
    requires KeyedIntents(s.w.d.intents) && O.SeenOk(s.w.d, s.w.seen) && i in s.w.seen && L.Transitions(i, next)
    requires Wishes(setup, s.w.d, s.publishing) && RequestsRightly(setup, s, O.Transition(i, next, request))
    requires d' == O.WithRequest(UpdateIntent(s.w.d, i.(status := next), i.revision), request).0
    ensures ServiceEffect(setup, s.publishing, s.clock, s.w.d, d')
  {
    hide *;
    var d := s.w.d;
    var step := UpdateIntent(d, i.(status := next), i.revision);
    UpdateShape(d, i.(status := next), i.revision);
    if step.1.Done? {
      O.WriteMeansUnchanged(d, s.w.seen, i);
      TransitionShifts(d.intents, i, next);
      TransitionAsks(setup, s, i, next, request);
      WrittenEffect(setup, s.publishing, s.clock, d, step, i, i.(status := next, revision := i.revision + 1), request);
    } else {
      RefusedEffect(setup, s.publishing, s.clock, d, step, request);
    }
  }

  lemma LifecycleParts(intents: map<IntentKey, Intent>)
    requires L.Lifecycle(intents)
    ensures KeyedIntents(intents) && L.ClosedBehindNewest(intents)
  {
    hide KeyedIntents, L.ClosedBehindNewest, L.Contiguous, L.OneEffective, L.OneActive;
  }

  lemma AcceptanceEffect(setup: Setup, s: System, i: Intent, request: Option<Publication>, d': Data)
    requires L.Lifecycle(s.w.d.intents) && O.SeenOk(s.w.d, s.w.seen) && i in s.w.seen
    requires (i.status.Submitted? || i.status.Review?)
    requires Wishes(setup, s.w.d, s.publishing) && RequestsRightly(setup, s, O.Accept(i, request))
    requires d' == O.WithRequest(AcceptIntent(s.w.d, i.(status := Accepted), i.revision), request).0
    ensures ServiceEffect(setup, s.publishing, s.clock, s.w.d, d')
  {
    hide *;
    LifecycleParts(s.w.d.intents);
    var d := s.w.d;
    var step := AcceptIntent(d, i.(status := Accepted), i.revision);
    AcceptShape(d, i.(status := Accepted), i.revision);
    if step.1.Done? {
      O.WriteMeansUnchanged(d, s.w.seen, i);
      AcceptanceShifts(d.intents, i);
      AcceptanceAsks(setup, s, i, request);
      WrittenEffect(setup, s.publishing, s.clock, d, step, i, i.(status := Accepted, revision := i.revision + 1),
        request);
    } else {
      RefusedEffect(setup, s.publishing, s.clock, d, step, request);
    }
  }

  lemma ActivationEffect(setup: Setup, s: System, i: Intent, d': Data)
    requires KeyedIntents(s.w.d.intents) && O.SeenOk(s.w.d, s.w.seen) && i in s.w.seen && i.status.Accepted?
    requires d' == ActivateIntent(s.w.d, i.(status := Active), i.revision).0
    ensures ServiceEffect(setup, s.publishing, s.clock, s.w.d, d')
  {
    var d := s.w.d;
    var step := ActivateIntent(d, i.(status := Active), i.revision);
    if !step.1.Done? {
      NoEffect(setup, s.publishing, s.clock, d, d');
    } else {
      O.WriteMeansUnchanged(d, s.w.seen, i);
      ActivationShifts(d.intents, i);
      hide O.SeenOk, IntentWriteGuard, UpdatedIntents, IntentShift, L.IsNewest, OtherActive, NoIntent, CurrentIs;
      OneShift(setup, s.publishing, s.clock, d, d', Some(i), i.(status := Active, revision := i.revision + 1));
    }
  }

  lemma ModificationEffect(setup: Setup, s: System, i: Intent, details: Id, volumes: seq<Volume>, d': Data)
    requires KeyedIntents(s.w.d.intents) && O.SeenOk(s.w.d, s.w.seen) && i in s.w.seen && L.Modifiable(i.status)
    requires d' == ReplaceIntent(s.w.d, i.version, i.revision, L.Modified(i, details), volumes).0
    ensures ServiceEffect(setup, s.publishing, s.clock, s.w.d, d')
  {
    var d := s.w.d;
    var next := L.Modified(i, details);
    var step := ReplaceIntent(d, i.version, i.revision, next, volumes);
    if !step.1.Done? {
      NoEffect(setup, s.publishing, s.clock, d, d');
    } else {
      O.WriteMeansUnchanged(d, s.w.seen, i);
      ModificationShifts(d.intents, i, details);
      hide O.SeenOk, IntentWriteGuard, ReplacedIntents, ReplacedVolumes, IntentShift, L.IsNewest, InScope;
      OneShift(setup, s.publishing, s.clock, d, d', Some(i),
        next.(revision := if next.version == i.version then i.revision + 1 else 0));
    }
  }

  lemma CreationEffect(setup: Setup, s: System, intent: Intent, d': Data)
    requires L.Lifecycle(s.w.d.intents) && intent.version == 1 && intent.status.Draft?
    requires d' == CreateIntent(s.w.d, intent).0
    ensures ServiceEffect(setup, s.publishing, s.clock, s.w.d, d')
  {
    var d := s.w.d;
    CreationShape(d, intent);
    hide CreateIntent, L.Lifecycle, IntentShift, ServiceEffect, ShiftEffect;
    if d' == d {
      NoEffect(setup, s.publishing, s.clock, d, d');
    } else {
      CreationShifts(d.intents, intent);
      CreatedEffect(setup, s.publishing, s.clock, d, d', intent.(revision := 0));
      OneShift(setup, s.publishing, s.clock, d, d', None, intent.(revision := 0));
    }
  }

  lemma CreationShape(d: Data, intent: Intent)
    ensures var d' := CreateIntent(d, intent).0;
      d' == d || ((intent.id, intent.version) !in d.intents
                  && d' == d.(intents := d.intents[(intent.id, intent.version) := intent.(revision := 0)]))
  {
    hide IntentFenced;
  }

  lemma CreatedEffect(setup: Setup, publishing: bool, now: int, d: Data, d': Data, created: Intent)
    requires IntentShift(d.intents, d'.intents, None, created) && d'.publications == d.publications
    requires L.Editable(created.status)
    ensures ShiftEffect(setup, publishing, now, d, d', None, created)
  {
    hide IntentShift;
  }

  lemma IntentCallEffect(setup: Setup, s: System, step: O.Step, d': Data)
    requires L.Lifecycle(s.w.d.intents) && KeyedIntents(s.w.d.intents) && O.SeenOk(s.w.d, s.w.seen)
    requires Wishes(setup, s.w.d, s.publishing) && RequestsRightly(setup, s, step)
    requires O.IntentCall(s.w.d, s.w.seen, step, d')
    ensures ServiceEffect(setup, s.publishing, s.clock, s.w.d, d')
  {
    hide L.Lifecycle, KeyedIntents, O.SeenOk, Wishes, ServiceEffect, UpdateIntent, AcceptIntent, ActivateIntent,
        ReplaceIntent, CreateIntent,
      RecordVolume, O.WithRequest, L.Modified, L.Transitions;
    match step
    case NewIntent(intent) => CreationEffect(setup, s, intent, d');
    case Transition(i, next, request) => TransitionEffect(setup, s, i, next, request, d');
    case Accept(i, request) => AcceptanceEffect(setup, s, i, request, d');
    case Activate(i) => ActivationEffect(setup, s, i, d');
    case Modify(i, details, volumes) => ModificationEffect(setup, s, i, details, volumes, d');
    case AddVolume(i, volume) => VolumeQuiet(s.w.d, volume); assert d' == s.w.d.(volumes := d'.volumes);
      NoEffect(setup, s.publishing, s.clock, s.w.d, d');
  }


  /** Flights, missions and deployments have no part in publication. */
  lemma FleetCallQuiet(d: Data, seen: set<Intent>, seenFlights: set<Flight>, step: O.Step, d': Data)
    requires O.FleetCall(d, seen, seenFlights, step, d')
    ensures d'.intents == d.intents && d'.publications == d.publications && d'.notifications == d.notifications
  {
    hide CreateFlight, StartFlight, CreatesMission;
    match step
    case PlanFlight(i, f) => FlightQuiet(d, f);
    case Start(f, startedAt) => StartQuiet(d, f.(status := Flying, startedAt := startedAt));
    case Import(mission) => MissionQuiet(d, mission, d');
  }

  lemma FlightQuiet(d: Data, f: Flight)
    ensures CreateFlight(d, f).0 == d || CreateFlight(d, f).0 == d.(flights := d.flights[f.id := f])
  {
  }

  lemma StartQuiet(d: Data, f: Flight)
    ensures StartFlight(d, f, Planned).0 == d || StartFlight(d, f, Planned).0 == d.(flights := d.flights[f.id := f])
  {
    hide MayStart, NoIntent;
  }

  lemma MissionQuiet(d: Data, mission: Mission, d': Data)
    requires exists r :: CreatesMission(d, mission, d', r)
    ensures d'.intents == d.intents && d'.publications == d.publications && d'.notifications == d.notifications
  {
    hide FlightBindingCurrent, NoIntent, FlightFenced, IsNextVersion;
  }

  lemma AdvanceQuiet(d: Data, fleet: F.Fleet, call: D.Call, sent: seq<Id>, e: D.Event, d': Data, call': D.Call,
                     sent': seq<Id>)
    requires D.CallOk(d, fleet, call) && D.Advances(d, call, sent, e, d', call', sent')
    ensures d'.intents == d.intents && d'.publications == d.publications && d'.notifications == d.notifications
  {
    hide D.Advances, D.CallOk, D.Swaps, D.Tracked, CreateDeployment, O.Proposal;
    O.AdvanceKinds(d, fleet, call, sent, e, d', call', sent');
    if O.Admits(call, e) {
      AdmissionQuiet(d, call.wanted);
    } else if O.Proposal(call, e).Some? {
      var base, written := O.Proposal(call, e).value.0, O.Proposal(call, e).value.1;
      var ok :| D.Swaps(d, d', base, written, ok);
      SwapQuiet(d, d', base, written, ok);
    }
  }

  lemma SwapQuiet(d: Data, d': Data, base: Deployment, written: Deployment, ok: bool)
    requires D.Swaps(d, d', base, written, ok)
    ensures d'.intents == d.intents && d'.publications == d.publications && d'.notifications == d.notifications
  {
  }

  lemma AdmissionQuiet(d: Data, wanted: Deployment)
    ensures var d' := CreateDeployment(d, wanted).0;
      d'.intents == d.intents && d'.publications == d.publications && d'.notifications == d.notifications
  {
    hide AdmissionBlocked, NoIntent;
  }

  lemma StepEffect(setup: Setup, s: System, step: O.Step, w': O.World)
    requires SysInv(setup, s) && RequestsRightly(setup, s, step) && O.Next(setup.fleet, s.w, step, w')
    ensures ServiceEffect(setup, s.publishing, s.clock, s.w.d, w'.d)
    ensures s.w.seen <= w'.seen
  {
    hide *;
    Parts(setup, s);
    KeyedOf(setup, s.w);
    match step
    case Advance(n, e) => AdvanceStepEffect(setup, s, n, e, w'); SameSeen(setup, s, step, w');
    case ReadIntent(_) => ReadQuiet(setup, s, step, w'); NoEffect(setup, s.publishing, s.clock, s.w.d, w'.d);
    case ReadFlight(_) => ReadQuiet(setup, s, step, w'); NoEffect(setup, s.publishing, s.clock, s.w.d, w'.d);
    case Begin(_, _, _, _, _) => ReadQuiet(setup, s, step, w'); NoEffect(setup, s.publishing, s.clock, s.w.d, w'.d);
    case _ => SameSeen(setup, s, step, w'); CallStepEffect(setup, s, step, w');
  }

  lemma ReadQuiet(setup: Setup, s: System, step: O.Step, w': O.World)
    requires O.Next(setup.fleet, s.w, step, w') && (step.ReadIntent? || step.ReadFlight? || step.Begin?)
    ensures w'.d == s.w.d && s.w.seen <= w'.seen
  {
    hide O.MayBegin, D.NewDeployment, IsLatest, O.IntentCall, O.FleetCall, D.Advances;
  }

  lemma SameSeen(setup: Setup, s: System, step: O.Step, w': O.World)
    requires O.Next(setup.fleet, s.w, step, w') && !step.ReadIntent?
    ensures w'.seen == s.w.seen
  {
    hide O.MayBegin, D.NewDeployment, IsLatest, O.IntentCall, O.FleetCall, D.Advances;
  }

  lemma CallStepEffect(setup: Setup, s: System, step: O.Step, w': O.World)
    requires L.Lifecycle(s.w.d.intents) && KeyedIntents(s.w.d.intents) && O.SeenOk(s.w.d, s.w.seen)
    requires Wishes(setup, s.w.d, s.publishing)
    requires RequestsRightly(setup, s, step) && O.Next(setup.fleet, s.w, step, w')
    requires !step.Advance? && !step.ReadIntent? && !step.ReadFlight? && !step.Begin?
    ensures ServiceEffect(setup, s.publishing, s.clock, s.w.d, w'.d)
  {
    assert O.IntentCall(s.w.d, s.w.seen, step, w'.d) || O.FleetCall(s.w.d, s.w.seen, s.w.seenFlights, step, w'.d) by {
      hide O.IntentCall, O.FleetCall, RequestsRightly, O.SeenOk, L.Lifecycle, Wishes, D.Advances, O.MayBegin;
    }
    hide *;
    if O.IntentCall(s.w.d, s.w.seen, step, w'.d) {
      IntentCallEffect(setup, s, step, w'.d);
    } else {
      FleetCallQuiet(s.w.d, s.w.seen, s.w.seenFlights, step, w'.d);
      NoEffect(setup, s.publishing, s.clock, s.w.d, w'.d);
    }
  }

  lemma AdvanceStepEffect(setup: Setup, s: System, n: nat, e: D.Event, w': O.World)
    requires O.Inv(setup.fleet, s.w) && O.Next(setup.fleet, s.w, O.Advance(n, e), w')
    ensures ServiceEffect(setup, s.publishing, s.clock, s.w.d, w'.d)
  {
    assert D.CallOk(s.w.d, setup.fleet, s.w.calls[n])
        by { hide O.Sound, D.CallOk, D.Advances, O.SeenOk, O.SeenFlightsOk, O.SentOk; }
    hide O.Inv, D.Advances, D.CallOk;
    AdvanceQuiet(s.w.d, setup.fleet, s.w.calls[n], s.w.sent, e, w'.d, w'.calls[n], w'.sent);
    NoEffect(setup, s.publishing, s.clock, s.w.d, w'.d);
  }

  /* ---- what the effect keeps ---- */

  /** The versions stored as accepted after a step, added to those known before. */
  ghost function Remembering(s: System): System { s.(accepted := s.accepted + AcceptedKeys(s.w.d)) }

  lemma HistoryGrows(d': Data, accepted: set<IntentKey>)
    requires L.Lifecycle(d'.intents) && forall k :: k in accepted ==> k.1 >= 1
    ensures History(d', accepted + AcceptedKeys(d'))
  {
  }

  lemma RememberedView(id: Id, s: System, w': O.World)
    requires ViewOk(id, View(s, id)) && L.Lifecycle(w'.d.intents)
    ensures var v := View(s, id); var extra := VersionsOf(AcceptedKeys(w'.d), id);
      ViewOk(id, v.(accepted := v.accepted + extra)) &&
      VersionsOf(s.accepted + AcceptedKeys(w'.d), id) == v.accepted + extra
  {
    var extra := VersionsOf(AcceptedKeys(w'.d), id);
    assert 0 !in extra;
    hide ViewOk, L.Lifecycle;
    MoreAccepted(id, View(s, id), extra);
  }

  /** An intent whose publication the call leaves alone. */
  lemma PlainView(id: Id, s: System, w': O.World)
    requires ViewOk(id, View(s, id)) && L.Lifecycle(w'.d.intents)
    requires StoredPublication(w'.d, id) == StoredPublication(s.w.d, id) && w'.d.notifications == s.w.d.notifications
    ensures ViewOk(id, View(Remembering(s.(w := w')), id))
  {
    hide ViewOk, L.Lifecycle;
    RememberedView(id, s, w');
    var v := View(s, id);
    hide VersionsOf, WorkersOf;
    assert View(Remembering(s.(w := w')), id) == v.(accepted := v.accepted + VersionsOf(AcceptedKeys(w'.d), id));
  }

  /** The intent that was accepted or ended, with its request. */
  lemma AskedView(setup: Setup, s: System, w': O.World, before: Intent, after: Intent, desired: ExternalState)
    requires ViewOk(after.id, View(s, after.id)) && L.Lifecycle(w'.d.intents) && KeyedIntents(s.w.d.intents)
    requires IntentShift(s.w.d.intents, w'.d.intents, Some(before), after)
    requires Asked(s.w.d, w'.d, after, desired, s.clock)
    requires w'.d.notifications == s.w.d.notifications
    requires after.id in s.w.d.publications ==>
      s.w.d.publications[after.id].intent == after.id && Tied(s.w.d.intents, s.w.d.publications[after.id])
    ensures ViewOk(after.id, View(Remembering(s.(w := w')), after.id))
  {
    var id := after.id;
    var v := View(s, id);
    var more := v.(accepted := v.accepted + VersionsOf(AcceptedKeys(w'.d), id));
    RememberedView(id, s, w') by { hide IntentShift, Asked, Tied; }
    if after.id in s.w.d.publications {
      AcceptanceMayRequest(s.w.d.intents, w'.d.intents, before, after, s.w.d.publications[id]);
    }
    assert w'.d.intents[(id, after.version)] == after;
    assert desired.AcceptedState? ==> (id, after.version) in AcceptedKeys(w'.d) && after.version in more.accepted;
    hide ViewOk, L.Lifecycle, VersionsOf, WorkersOf, IntentShift, Tied, KeyedIntents;
    RequestedView(id, more, after.version, desired);
    assert View(Remembering(s.(w := w')), id)
        == more.(pub := Some(Requested(more.pub, P.PublicationRequest(id, after.version, desired, more.clock))));
  }

  lemma ServiceViews(setup: Setup, s: System, w': O.World)
    requires SysInv(setup, s) && L.Lifecycle(w'.d.intents) && ServiceEffect(setup, s.publishing, s.clock, s.w.d, w'.d)
    ensures forall id :: ViewOk(id, View(Remembering(s.(w := w')), id))
  {
    forall id ensures ViewOk(id, View(Remembering(s.(w := w')), id)) {
      ServiceView(setup, s, w', id);
    }
  }

  lemma ServiceView(setup: Setup, s: System, w': O.World, id: Id)
    requires SysInv(setup, s) && L.Lifecycle(w'.d.intents) && ServiceEffect(setup, s.publishing, s.clock, s.w.d, w'.d)
    ensures ViewOk(id, View(Remembering(s.(w := w')), id))
  {
    Parts(setup, s) by { hide *; }
    KeyedOf(setup, s.w) by { hide *; }
    hide SysInv, O.Inv, Snapshots, N.QueueInv, ViewOk, View, L.Lifecycle, IntentShift, Tied;
    var d, d' := s.w.d, w'.d;
    if StoredPublication(d', id) == StoredPublication(d, id) {
      hide ServiceEffect;
      PlainView(id, s, w');
    } else {
      var before, after :| ShiftEffect(setup, s.publishing, s.clock, d, d', before, after);
      var desired :| Asked(d, d', after, desired, s.clock);
      assert after.id == id;
      AskedView(setup, s, w', before.value, after, desired);
    }
  }

  lemma ShiftWishes(setup: Setup, publishing: bool, now: int, d: Data, d': Data, before: Option<Intent>, after: Intent)
    requires Wishes(setup, d, publishing) && KeyedPublications(d.publications) && KeyedIntents(d.intents)
    requires L.Lifecycle(d'.intents) && ShiftEffect(setup, publishing, now, d, d', before, after)
    ensures Wishes(setup, d', publishing)
  {
    forall id | id in d'.publications ensures publishing && id in setup.canonical &&
      Tied(d'.intents, d'.publications[id]) {
      hide *;
      if id in d.publications && d'.publications[id] == d.publications[id] &&
        (id == after.id ==> L.Editable(after.status) || after.status.Active?) {
        ShiftedWish(setup, publishing, now, d, d', before, after, id);
      } else {
        AskedWish(setup, publishing, now, d, d', before, after, id);
      }
    }
  }

  lemma ShiftedWish(setup: Setup, publishing: bool, now: int, d: Data, d': Data, before: Option<Intent>, after: Intent,
                    id: Id)
    requires Wishes(setup, d, publishing) && KeyedPublications(d.publications) && KeyedIntents(d.intents)
    requires ShiftEffect(setup, publishing, now, d, d', before, after) && id in d.publications && id in d'.publications
    requires d'.publications[id] == d.publications[id]
    requires (id == after.id ==> L.Editable(after.status) || after.status.Active?)
    ensures publishing && id in setup.canonical && Tied(d'.intents, d'.publications[id])
  {
    assert IntentShift(d.intents, d'.intents, before, after) by { hide IntentShift; }
    hide IntentShift, ShiftEffect, KeyedIntents, Tied;
    ShiftKeepsTied(d.intents, d'.intents, before, after, d.publications[id]);
  }

  lemma AskedWish(setup: Setup, publishing: bool, now: int, d: Data, d': Data, before: Option<Intent>, after: Intent,
                  id: Id)
    requires ShiftEffect(setup, publishing, now, d, d', before, after) && id in d'.publications
    requires L.Lifecycle(d'.intents)
    requires !(id in d.publications && d'.publications[id] == d.publications[id] &&
      (id == after.id ==> L.Editable(after.status) || after.status.Active?))
    ensures publishing && id in setup.canonical && Tied(d'.intents, d'.publications[id])
  {
    hide L.Lifecycle, Tied, IntentShift;
    var desired :| Asked(d, d', after, desired, now);
    assert id == after.id;
    AskedTied(d, d', before.value, after, desired, now);
  }

  lemma AskedTied(d: Data, d': Data, before: Intent, after: Intent, desired: ExternalState, now: int)
    requires IntentShift(d.intents, d'.intents, Some(before), after) && Asked(d, d', after, desired, now)
    requires L.Lifecycle(d'.intents)
    ensures Tied(d'.intents, d'.publications[after.id])
  {
    AskedMeans(d, d', after, desired, now);
    ShiftedNewest(d.intents, d'.intents, before, after);
    hide *;
    RequestTied(d'.intents, d'.publications[after.id], after);
  }

  lemma AskedMeans(d: Data, d': Data, after: Intent, desired: ExternalState, now: int)
    requires Asked(d, d', after, desired, now)
    ensures after.id in d'.publications && d'.publications[after.id].intent == after.id
    ensures d'.publications[after.id].desiredState == desired
    ensures desired.AcceptedState? || (desired.WithdrawnState? && Over(after.status))
  {
  }

  lemma ShiftedNewest(intents: map<IntentKey, Intent>, intents': map<IntentKey, Intent>, before: Intent, after: Intent)
    requires IntentShift(intents, intents', Some(before), after) && L.Lifecycle(intents')
    ensures L.IsNewest(intents', after) && (after.id, 1) in intents' && KeyedIntents(intents')
  {
    assert intents'[(after.id, after.version)] == after && L.IsNewest(intents', after);
  }

  lemma ServiceSnapshots(setup: Setup, s: System, w': O.World)
    requires SysInv(setup, s) && ServiceEffect(setup, s.publishing, s.clock, s.w.d, w'.d) && s.w.seen <= w'.seen
    ensures Snapshots(Remembering(s.(w := w')))
  {
    hide *;
    Parts(setup, s);
    KeyedOf(setup, s.w);
    var s' := Remembering(s.(w := w'));
    RememberingKeeps(s, w');
    forall i | i in s'.confirmed ensures ConfirmedFact(s'.w.d, s'.w.seen, i) {
      SnapshotAt(s);
      ConfirmedStays(setup, s, w', i);
    }
    forall n | n in s'.compensations ensures CompensationFact(s'.w.d, s'.w.seen, s'.accepted, s'.compensations[n]) {
      SnapshotAt(s);
      CompensationStays(setup, s, w', s.compensations[n]);
    }
    SnapshotsHold(s');
  }

  lemma RememberingKeeps(s: System, w': O.World)
    ensures var s' := Remembering(s.(w := w'));
      s'.w == w' && s'.confirmed == s.confirmed && s'.compensations == s.compensations &&
      s'.accepted == s.accepted + AcceptedKeys(w'.d)
  {
    hide AcceptedKeys;
  }

  lemma SnapshotAt(s: System)
    requires Snapshots(s)
    ensures forall i :: i in s.confirmed ==> ConfirmedFact(s.w.d, s.w.seen, i)
    ensures forall n :: n in s.compensations ==> CompensationFact(s.w.d, s.w.seen, s.accepted, s.compensations[n])
  {
    hide ConfirmedFact, CompensationFact;
  }

  lemma SnapshotsHold(s: System)
    requires forall i :: i in s.confirmed ==> ConfirmedFact(s.w.d, s.w.seen, i)
    requires forall n :: n in s.compensations ==> CompensationFact(s.w.d, s.w.seen, s.accepted, s.compensations[n])
    ensures Snapshots(s)
  {
    hide ConfirmedFact, CompensationFact;
  }

  lemma ConfirmedStays(setup: Setup, s: System, w': O.World, i: Intent)
    requires ConfirmedFact(s.w.d, s.w.seen, i) && O.SeenOk(s.w.d, s.w.seen) && KeyedIntents(s.w.d.intents)
    requires s.w.seen <= w'.seen
    requires ServiceEffect(setup, s.publishing, s.clock, s.w.d, w'.d)
    ensures ConfirmedFact(w'.d, w'.seen, i)
  {
    hide O.SeenOk, KeyedIntents, L.IsNewest;
    if L.IsNewest(w'.d.intents, i) && w'.d.intents != s.w.d.intents {
      hide ServiceEffect;
      ShiftedElsewhere(setup, s, w', i);
    } else if w'.d.intents == s.w.d.intents {
      UnshiftedPublications(setup, s, w');
      hide ServiceEffect;
    }
  }

  lemma UnshiftedPublications(setup: Setup, s: System, w': O.World)
    requires ServiceEffect(setup, s.publishing, s.clock, s.w.d, w'.d) && w'.d.intents == s.w.d.intents
    ensures w'.d.publications == s.w.d.publications
  {
    hide IntentShift, Asked;
    if w'.d.publications != s.w.d.publications {
      var before, after :| ShiftEffect(setup, s.publishing, s.clock, s.w.d, w'.d, before, after);
      ShiftChanges(s.w.d.intents, w'.d.intents, before, after);
    }
  }

  lemma CompensationStays(setup: Setup, s: System, w': O.World, c: Compensating)
    requires CompensationFact(s.w.d, s.w.seen, s.accepted, c) && O.SeenOk(s.w.d, s.w.seen)
    requires KeyedIntents(s.w.d.intents) && s.w.seen <= w'.seen
    requires ServiceEffect(setup, s.publishing, s.clock, s.w.d, w'.d)
    ensures CompensationFact(w'.d, w'.seen, s.accepted + AcceptedKeys(w'.d), c)
  {
    hide O.SeenOk, KeyedIntents, L.IsNewest, AcceptedKeys;
    KeysGrow(setup, s, w');
    if L.IsNewest(w'.d.intents, c.current) && w'.d.intents != s.w.d.intents {
      hide ServiceEffect;
      ShiftedElsewhere(setup, s, w', c.current);
    } else {
      hide IntentShift, Asked;
    }
  }

  lemma KeysGrow(setup: Setup, s: System, w': O.World)
    requires ServiceEffect(setup, s.publishing, s.clock, s.w.d, w'.d)
    ensures s.w.d.publications.Keys <= w'.d.publications.Keys
  {
    hide IntentShift;
  }

  /** A snapshot that is newest after a shift belongs to another intent, whose records and publication stayed. */
  lemma ShiftedElsewhere(setup: Setup, s: System, w': O.World, c: Intent)
    requires ServiceEffect(setup, s.publishing, s.clock, s.w.d, w'.d) && w'.d.intents != s.w.d.intents
    requires L.IsNewest(w'.d.intents, c)
    requires O.SeenOk(s.w.d, s.w.seen) && c in s.w.seen && KeyedIntents(s.w.d.intents)
    ensures L.IsNewest(s.w.d.intents, c) && StoredPublication(w'.d, c.id) == StoredPublication(s.w.d, c.id)
    ensures forall v :: (c.id, v) in s.w.d.intents <==> (c.id, v) in w'.d.intents
    ensures forall v :: (c.id, v) in s.w.d.intents ==> w'.d.intents[(c.id, v)] == s.w.d.intents[(c.id, v)]
  {
    hide IntentShift, L.IsNewest, O.SeenOk, KeyedIntents;
    var before, after :| ShiftEffect(setup, s.publishing, s.clock, s.w.d, w'.d, before, after);
    StillNewest(s.w.d, w'.d.intents, s.w.seen, c);
    ShiftElsewhere(s.w.d, w'.d.intents, s.w.seen, c, before, after);
  }

  /** A service call keeps the invariant of the whole system. */
  lemma ServiceKeeps(setup: Setup, s: System, step: O.Step, w': O.World)
    requires SysInv(setup, s) && RequestsRightly(setup, s, step) && O.Next(setup.fleet, s.w, step, w')
    ensures SysInv(setup, Remembering(s.(w := w')))
  {
    StepEffect(setup, s, step, w');
    KeyedOf(setup, s.w);
    assert O.Inv(setup.fleet, s.w) && Wishes(setup, s.w.d, s.publishing) &&
        N.QueueInv(N.Queue(s.w.d.notifications, s.deliveries));
    assert History(s.w.d, s.accepted);
    O.NextKeepsInv(setup.fleet, s.w, step, w') by { hide SysInv, O.Inv, O.Next, O.Evolves; }
    KeyedOf(setup, w') by { hide SysInv, O.Inv; }
    hide O.Inv, O.Next, L.Lifecycle, N.QueueInv;
    ServiceViews(setup, s, w') by { hide SysInv, ServiceEffect, ViewOk, View; }
    ServiceSnapshots(setup, s, w') by { hide SysInv, ServiceEffect; }
    ServiceWishes(setup, s, w') by { hide SysInv, ServiceEffect, Wishes; }
    HistoryGrows(w'.d, s.accepted);
    hide ServiceEffect, ViewOk, View, Wishes, Snapshots, History;
  }

  lemma ServiceWishes(setup: Setup, s: System, w': O.World)
    requires Wishes(setup, s.w.d, s.publishing) && KeyedPublications(s.w.d.publications) && KeyedIntents(s.w.d.intents)
    requires L.Lifecycle(w'.d.intents) && ServiceEffect(setup, s.publishing, s.clock, s.w.d, w'.d)
    ensures Wishes(setup, w'.d, s.publishing)
  {
    hide L.Lifecycle, IntentShift, KeyedIntents;
    if w'.d.intents == s.w.d.intents && w'.d.publications == s.w.d.publications {
    } else {
      hide Tied;
      var before, after :| ShiftEffect(setup, s.publishing, s.clock, s.w.d, w'.d, before, after);
      hide Wishes;
      ShiftWishes(setup, s.publishing, s.clock, s.w.d, w'.d, before, after);
    }
  }
}
