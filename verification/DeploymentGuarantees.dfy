/** What every run of the control plane guarantees about deployments, flights and the intents they rely on. */
module DeploymentGuarantees {
  import opened Domain
  import opened StoreState
  import opened FleetFences
  import opened DeploymentCalls
  import opened Operations
  import L = IntentLifecycle

  /* ---- records over a run ---- */

  lemma StepEvolves(fleet: Fleet, run: seq<World>, k: nat)
    requires IsRun(fleet, run) && k + 1 < |run|
    ensures Evolves(run[k].d, run[k + 1].d)
  {
    hide *;
    RunKeepsInv(fleet, run, k);
    FollowsAt(fleet, run, k);
    FollowsKeepsInv(fleet, run[k], run[k + 1]);
  }

  predicate OnlyAdvances(before: Deployment, after: Deployment) {
    && RecordEvolves(before, after)
    && (!Outstanding(before.status) ==> after == before)
    && (before.dispatchStarted ==> after.dispatchStarted)
    && before.attempts <= after.attempts && after.command == before.command
  }

  lemma StepRecord(fleet: Fleet, run: seq<World>, k: nat, id: Id)
    requires IsRun(fleet, run) && k + 1 < |run| && id in run[k].d.deployments
    ensures id in run[k + 1].d.deployments && RecordEvolves(run[k].d.deployments[id], run[k + 1].d.deployments[id])
  {
    StepEvolves(fleet, run, k);
    assert DeploymentsEvolve(run[k].d, run[k + 1].d);
    hide IsRun, Evolves;
  }

  /** A terminal deployment never changes again, a dispatch never becomes undispatched, attempts never shrink,
      and the command of a deployment is fixed. */
  lemma {:induction false} RecordsOnlyAdvance(fleet: Fleet, run: seq<World>, i: nat, j: nat, id: Id)
    requires IsRun(fleet, run) && i <= j < |run| && id in run[i].d.deployments
    ensures id in run[j].d.deployments && OnlyAdvances(run[i].d.deployments[id], run[j].d.deployments[id])
  {
    hide *;
    if i == j {
      OnlyAdvancesReflexive(run[i].d.deployments[id]);
    } else {
      RecordsOnlyAdvance(fleet, run, i, j - 1, id);
      StepRecord(fleet, run, j - 1, id);
      OnlyAdvancesTransitive(run[i].d.deployments[id], run[j - 1].d.deployments[id], run[j].d.deployments[id]);
    }
  }

  lemma OnlyAdvancesReflexive(a: Deployment)
    ensures OnlyAdvances(a, a)
  {
  }

  lemma OnlyAdvancesTransitive(a: Deployment, b: Deployment, c: Deployment)
    requires OnlyAdvances(a, b) && RecordEvolves(b, c)
    ensures OnlyAdvances(a, c)
  {
  }

  /** The agent receives a command only after the record's dispatch marker is durable, and the marker stays. */
  lemma CommandsFollowMarkers(fleet: Fleet, run: seq<World>, k: nat)
    requires IsRun(fleet, run) && k + 1 < |run|
    ensures forall id :: id in run[k + 1].sent ==> Marked(run[k].d, id) && Marked(run[k + 1].d, id)
  {
    hide *;
    RunKeepsInv(fleet, run, k);
    RunKeepsInv(fleet, run, k + 1);
    FollowsAt(fleet, run, k);
    FollowsMarked(fleet, run[k], run[k + 1]);
  }

  lemma FollowsMarked(fleet: Fleet, w: World, w': World)
    requires Inv(fleet, w) && Inv(fleet, w') && Follows(fleet, w, w')
    ensures forall id :: id in w'.sent ==> Marked(w.d, id) && Marked(w'.d, id)
  {
    hide Sound, SeenOk, SeenFlightsOk, CallsOk, Next;
    var step :| Next(fleet, w, step, w');
    SentMarkedBefore(fleet, w, step, w');
  }

  lemma SentMarkedBefore(fleet: Fleet, w: World, step: Step, w': World)
    requires Inv(fleet, w) && Next(fleet, w, step, w')
    ensures SentOk(w.d, w'.sent)
  {
    hide Sound, SeenOk, SeenFlightsOk, IntentCall, FleetCall, MayBegin, Swaps, CreateDeployment, AfterReply,
        RecordEvolves;
    if step.Advance? {
      var call := w.calls[step.caller];
      assert CallOk(w.d, fleet, call);
      if call.Sending? {
        MarkedBySnapshot(w.d, call.snap);
      } else {
        assert w'.sent == w.sent by { hide SentOk, CallOk; }
      }
    } else {
      assert w'.sent == w.sent;
    }
  }

  lemma MarkedBySnapshot(d: Data, snap: Deployment)
    requires Tracked(d, snap) && snap.dispatchStarted
    ensures Marked(d, snap.command.deployment)
  {
  }

  lemma AdvanceOf(fleet: Fleet, w: World, n: nat, e: Event, w': World)
    requires Inv(fleet, w) && n in w.calls && Next(fleet, w, Advance(n, e), w')
    ensures n in w'.calls && Sound(w.d, fleet) && CallOk(w.d, fleet, w.calls[n]) && SentOk(w.d, w.sent)
    ensures Advances(w.d, w.calls[n], w.sent, e, w'.d, w'.calls[n], w'.sent)
  {
    hide Sound, SeenOk, SeenFlightsOk, SentOk, Advances;
  }

  /* ---- context failures ---- */

  /** The record written over an open one when a context step failed: TemporaryError exactly if no dispatch has
      begun, and otherwise the outcome stays unknown. */
  predicate RecordsContextFailure(before: Deployment, after: Deployment) {
    && Outstanding(before.status) && after.dispatchStarted == before.dispatchStarted
    && after.attempts == before.attempts + 1
    && (if before.dispatchStarted then after.status.OutcomeUnknown? else after.status.TemporaryError?)
  }

  /** A failed context step changes one record, and calls it a temporary error only if the agent has not received
      the command. */
  lemma ContextErrorMeansUndispatched(fleet: Fleet, w: World, n: nat, now: int, heard: bool, w': World)
    requires Inv(fleet, w) && n in w.calls && w.calls[n].ContextFailed?
    requires Next(fleet, w, Advance(n, Persist(now, heard)), w')
    requires w'.d != w.d
    ensures var id := w.calls[n].snap.command.deployment;
      && id in w.d.deployments && id in w'.d.deployments
      && w'.d.deployments == w.d.deployments[id := w'.d.deployments[id]]
      && RecordsContextFailure(w.d.deployments[id], w'.d.deployments[id])
      && (w'.d.deployments[id].status.TemporaryError? ==> id !in w'.sent)
  {
    AdvanceOf(fleet, w, n, Persist(now, heard), w');
    hide Inv, Next, Sound;
    ContextFailureRecorded(w.d, fleet, w.calls[n], now, heard, w.sent, w'.d, w'.calls[n], w'.sent);
  }

  lemma ContextFailureRecorded(d: Data, fleet: Fleet, call: Call, now: int, heard: bool, sent: seq<Id>, d': Data,
                               call': Call, sent': seq<Id>)
    requires call.ContextFailed? && CallOk(d, fleet, call) && SentOk(d, sent) && d' != d
    requires Advances(d, call, sent, Persist(now, heard), d', call', sent')
    ensures var id := call.snap.command.deployment;
      && id in d.deployments && id in d'.deployments && d'.deployments == d.deployments[id := d'.deployments[id]]
      && RecordsContextFailure(d.deployments[id], d'.deployments[id])
      && (d'.deployments[id].status.TemporaryError? ==> id !in sent')
  {
    hide SentOk, Tracked, Swaps;
    var ok :| Swaps(d, d', call.snap, ContextFailure(call.snap, now), ok);
    SwapWrote(d, d', call.snap, ContextFailure(call.snap, now), ok);
    NotSent(d, sent, call.snap);
  }

  lemma NotSent(d: Data, sent: seq<Id>, snap: Deployment)
    requires SentOk(d, sent) && snap.command.deployment in d.deployments
    requires d.deployments[snap.command.deployment] == snap
    ensures !snap.dispatchStarted ==> snap.command.deployment !in sent
  {
  }

  /** A swap that changed the store wrote its record over the snapshot and nothing else. */
  lemma SwapWrote(d: Data, after: Data, base: Deployment, written: Deployment, ok: bool)
    requires Tracked(d, base) && written.command == base.command && Swaps(d, after, base, written, ok) && after != d
    ensures var id := base.command.deployment;
      && id in d.deployments && d.deployments[id] == base && Outstanding(base.status)
      && after.deployments == d.deployments[id := WithRevision(written, base)]
  {
  }

  /* ---- correlated outcomes ---- */

  /** The stored record is terminal; if it was still open before, it now carries exactly the outcome of `desired`
      and the newest attempt evidence. */
  ghost predicate OutcomeKept(d: Data, after: Data, desired: Deployment) {
    var id := desired.command.deployment;
    && id in d.deployments && id in after.deployments
    && var before, written := d.deployments[id], after.deployments[id];
       && !Outstanding(written.status) && written.command == desired.command
       && (Outstanding(before.status) ==>
             && written.status == desired.status && written.report == desired.report
             && written.attempts == before.attempts && written.dispatchStarted && before.dispatchStarted)
  }

  /** A known terminal outcome is not lost: the call can stop without error only with that outcome, or an earlier
      terminal one, stored. */
  lemma OutcomeNotLost(fleet: Fleet, w: World, n: nat, e: Event, w': World)
    requires n in w.calls && (w.calls[n].Reporting? || w.calls[n].Rereading?) && !Outstanding(w.calls[n].desired.status)
    requires Inv(fleet, w) && n in w'.calls && w'.calls[n].Returned? && Next(fleet, w, Advance(n, e), w')
    ensures OutcomeKept(w.d, w'.d, w.calls[n].desired)
  {
    hide *;
    AdvanceOf(fleet, w, n, e, w');
    if w.calls[n].Reporting? {
      ReportKept(w.d, fleet, w.calls[n], e, w.sent, w'.d, w'.calls[n], w'.sent);
    } else {
      RereadKept(w.d, fleet, w.calls[n], e, w.sent, w'.d, w'.calls[n], w'.sent);
    }
  }

  lemma ReportKept(d: Data, fleet: Fleet, call: Call, e: Event, sent: seq<Id>, d': Data, call': Call, sent': seq<Id>)
    requires call.Reporting? && CallOk(d, fleet, call) && !Outstanding(call.desired.status)
    requires Advances(d, call, sent, e, d', call', sent') && call'.Returned?
    ensures OutcomeKept(d, d', call.desired)
  {
    hide Swaps, Outstanding;
    assert Swaps(d, d', call.snap, call.desired, true);
    SwapReplacesSnapshot(d, d', call.snap, call.desired, true);
  }

  lemma RereadKept(d: Data, fleet: Fleet, call: Call, e: Event, sent: seq<Id>, d': Data, call': Call, sent': seq<Id>)
    requires call.Rereading? && CallOk(d, fleet, call) && !Outstanding(call.desired.status)
    requires Advances(d, call, sent, e, d', call', sent') && call'.Returned?
    ensures OutcomeKept(d, d', call.desired)
  {
    hide Outstanding, Merged;
  }

  /** A retry expects a strictly later revision than the attempt that failed, and still offers the same outcome
      on top of the newest attempt evidence. */
  lemma RetryExpectsMore(fleet: Fleet, w: World, n: nat, e: Event, w': World)
    requires n in w.calls && w.calls[n].Rereading? && n in w'.calls && w'.calls[n].Reporting?
    requires Inv(fleet, w) && Next(fleet, w, Advance(n, e), w')
    ensures RetriesLater(w.d, w.calls[n], w'.calls[n])
  {
    hide *;
    AdvanceOf(fleet, w, n, e, w');
    RereadRetries(w.d, fleet, w.calls[n], e, w.sent, w'.d, w'.calls[n], w'.sent);
  }

  ghost predicate RetriesLater(d: Data, call: Call, next: Call)
    requires call.Rereading? && next.Reporting?
  {
    && call.desired.command.deployment in d.deployments
    && var stored := d.deployments[call.desired.command.deployment];
       && next.snap == stored && call.expected < stored.revision
       && next.desired.status == call.desired.status && next.desired.report == call.desired.report
       && next.desired.attempts == stored.attempts && next.desired.dispatchStarted
  }

  lemma RereadRetries(d: Data, fleet: Fleet, call: Call, e: Event, sent: seq<Id>, d': Data, call': Call, sent': seq<Id>)
    requires call.Rereading? && CallOk(d, fleet, call) && Advances(d, call, sent, e, d', call', sent')
    requires call'.Reporting?
    ensures RetriesLater(d, call, call')
  {
    hide Outstanding;
  }

  /* ---- bindings of an outstanding deployment ---- */

  /** Everything an outstanding deployment was admitted on: its flight, its mission as the current one, and every
      version and volume of its intent. */
  ghost predicate SameBindings(d: Data, after: Data, c: Command) {
    SameFlight(d, after, c) && SameMission(d, after, c) && SameIntent(d, after, c.intent)
  }

  ghost predicate SameFlight(d: Data, after: Data, c: Command) {
    && c.flight in d.flights && c.flight in after.flights && after.flights[c.flight] == d.flights[c.flight]
    && d.flights[c.flight].status.Planned?
  }

  ghost predicate SameMission(d: Data, after: Data, c: Command) {
    && MissionIsCurrent(d, c.flight, c.mission, c.digest) && MissionIsCurrent(after, c.flight, c.mission, c.digest)
    && after.missions[c.mission] == d.missions[c.mission]
  }

  ghost predicate SameIntent(d: Data, after: Data, intent: Id) {
    && (forall v :: (intent, v) in d.intents <==> (intent, v) in after.intents)
    && (forall v :: (intent, v) in d.intents ==> after.intents[(intent, v)] == d.intents[(intent, v)])
    && (forall v, u :: (intent, v, u) in d.volumes <==> (intent, v, u) in after.volumes)
    && (forall v, u :: (intent, v, u) in d.volumes ==> after.volumes[(intent, v, u)] == d.volumes[(intent, v, u)])
  }

  lemma StepKeepsBindings(d: Data, after: Data, fleet: Fleet, id: Id)
    requires Sound(d, fleet) && Sound(after, fleet) && Evolves(d, after)
    requires id in d.deployments && id in after.deployments && Outstanding(after.deployments[id].status)
    ensures SameBindings(d, after, d.deployments[id].command)
  {
    StillOpen(d, after, fleet, id);
    FencedWhileOpen(d, fleet, id);
    IntentSideKept(d, after, d.deployments[id].command.intent);
    assert BindingsKept(d, after);
    hide Sound, IntentFenced, Evolves, SameIntent;
    OpenKeepsFlight(d, after, d.deployments[id].command);
  }

  lemma StillOpen(d: Data, after: Data, fleet: Fleet, id: Id)
    requires Sound(d, fleet) && Sound(after, fleet) && Evolves(d, after)
    requires id in d.deployments && id in after.deployments && Outstanding(after.deployments[id].status)
    ensures Outstanding(d.deployments[id].status) && after.deployments[id].command == d.deployments[id].command
    ensures OpenFor(d, d.deployments[id].command) && OpenFor(after, d.deployments[id].command)
  {
    assert DeploymentsEvolve(d, after);
    assert OutstandingOpen(d) && OutstandingOpen(after);
    hide Sound, Evolves, OpenFor;
    assert RecordEvolves(d.deployments[id], after.deployments[id]);
  }

  lemma OpenKeepsFlight(d: Data, after: Data, c: Command)
    requires OpenFor(d, c) && OpenFor(after, c) && BindingsKept(d, after)
    ensures SameFlight(d, after, c) && SameMission(d, after, c)
  {
    assert FlightEvolves(d.flights[c.flight], after.flights[c.flight]);
    hide FlightBindingCurrent;
  }

  lemma FencedWhileOpen(d: Data, fleet: Fleet, id: Id)
    requires Sound(d, fleet) && id in d.deployments && Outstanding(d.deployments[id].status)
    ensures IntentFenced(d, d.deployments[id].command.intent)
  {
    var c := d.deployments[id].command;
    assert CommandBound(d, fleet, c);
    assert FlightFenced(d, c.flight);
    hide Sound, FlightFenced;
  }

  lemma IntentSideKept(d: Data, after: Data, intent: Id)
    requires IntentFenced(d, intent) && Evolves(d, after)
    ensures SameIntent(d, after, intent)
  {
    assert FencedIntentsKept(d, after.intents) && FencedVolumesKept(d, after.volumes);
    hide Evolves, IntentFenced;
    assert forall v :: (intent, v) in d.intents + after.intents ==> IntentFenced(d, (intent, v).0);
    assert forall v, u :: (intent, v, u) in d.volumes + after.volumes ==> IntentFenced(d, (intent, v, u).0);
  }

  lemma SameBindingsTransitive(a: Data, b: Data, e: Data, c: Command)
    requires SameBindings(a, b, c) && SameBindings(b, e, c)
    ensures SameBindings(a, e, c)
  {
    hide MissionIsCurrent;
  }

  lemma OpenBindingsHold(d: Data, fleet: Fleet, id: Id)
    requires Sound(d, fleet) && id in d.deployments && Outstanding(d.deployments[id].status)
    ensures SameBindings(d, d, d.deployments[id].command)
  {
    assert OpenFor(d, d.deployments[id].command);
  }

  lemma EarlierStillOpen(a: Deployment, b: Deployment)
    requires OnlyAdvances(a, b)
    ensures a.command == b.command
  {
  }

  /** As long as a deployment is outstanding, nothing it was admitted on changes. */
  lemma {:induction false} OutstandingBindingsStable(fleet: Fleet, run: seq<World>, i: nat, j: nat, id: Id)
    requires IsRun(fleet, run) && i <= j < |run| && id in run[i].d.deployments
    requires id in run[j].d.deployments && Outstanding(run[j].d.deployments[id].status)
    ensures SameBindings(run[i].d, run[j].d, run[i].d.deployments[id].command)
  {
    hide *;
    if i == j {
      RunKeepsInv(fleet, run, j);
      InvMeansSound(fleet, run[i]);
      OpenBindingsHold(run[i].d, fleet, id);
    } else {
      RecordsOnlyAdvance(fleet, run, i, j - 1, id);
      EarlierStillOpen(run[i].d.deployments[id], run[j - 1].d.deployments[id]);
      BindingsStep(fleet, run, j - 1, id);
      OutstandingBindingsStable(fleet, run, i, j - 1, id);
      SameBindingsTransitive(run[i].d, run[j - 1].d, run[j].d, run[i].d.deployments[id].command);
    }
  }

  lemma InvMeansSound(fleet: Fleet, w: World)
    requires Inv(fleet, w)
    ensures Sound(w.d, fleet)
  {
  }

  lemma BindingsStep(fleet: Fleet, run: seq<World>, k: nat, id: Id)
    requires IsRun(fleet, run) && k + 1 < |run| && id in run[k].d.deployments
    requires id in run[k + 1].d.deployments && Outstanding(run[k + 1].d.deployments[id].status)
    ensures Outstanding(run[k].d.deployments[id].status)
    ensures SameBindings(run[k].d, run[k + 1].d, run[k].d.deployments[id].command)
  {
    RunKeepsInv(fleet, run, k);
    RunKeepsInv(fleet, run, k + 1);
    StepEvolves(fleet, run, k);
    assert Sound(run[k].d, fleet) && Sound(run[k + 1].d, fleet);
    hide IsRun, Inv, Sound, Evolves, SameBindings;
    StillOpen(run[k].d, run[k + 1].d, fleet, id);
    StepKeepsBindings(run[k].d, run[k + 1].d, fleet, id);
  }

  /* ---- reconciliation of an open deployment ---- */

  /** Two commands for one request name the same bindings. */
  lemma SameRequestSameBinding(d: Data, fleet: Fleet, c: Command, w: Command)
    requires CommandBound(d, fleet, c) && CommandBound(d, fleet, w) && c.request == w.request
    ensures SameBinding(c, w)
  {
  }

  /** A retry of an open request is admitted again with the stored record. */
  lemma RetryIsAdmitted(fleet: Fleet, w: World, n: nat, id: Id, w': World)
    requires n in w.calls && w.calls[n].Planning? && n in w'.calls
    requires var c := w.calls[n].wanted.command;
      && c.key in w.d.deploymentByKey && w.d.deploymentByKey[c.key] == id && id in w.d.deployments
      && w.d.deployments[id].command.request == c.request && Outstanding(w.d.deployments[id].status)
    requires Inv(fleet, w) && Next(fleet, w, Advance(n, Admit(true)), w')
    ensures w'.d == w.d && w'.calls[n].Admitted? && w'.calls[n].snap == w.d.deployments[id]
  {
    hide *;
    AdvanceOf(fleet, w, n, Admit(true), w');
    AdmitShape(w.d, fleet, w.calls[n], w.sent, w'.d, w'.calls[n], w'.sent);
    RetryReplays(w.d, fleet, id, w.calls[n].wanted);
    OpenRetryGoesOn(w.calls[n].wanted, w.d.deployments[id]);
  }

  lemma AdmitShape(d: Data, fleet: Fleet, call: Call, sent: seq<Id>, d': Data, call': Call, sent': seq<Id>)
    requires call.Planning? && CallOk(d, fleet, call) && Advances(d, call, sent, Admit(true), d', call', sent')
    ensures CommandBound(d, fleet, call.wanted.command)
    ensures d' == CreateDeployment(d, call.wanted).0
    ensures call' == AfterAdmission(call.wanted, CreateDeployment(d, call.wanted).1)
  {
    hide CommandBound, CreateDeployment, AfterAdmission;
  }

  lemma OpenRetryGoesOn(wanted: Deployment, stored: Deployment)
    requires Outstanding(stored.status) && stored.command.request == wanted.command.request
    ensures AfterAdmission(wanted, DeploymentOk(stored)).Admitted?
    ensures AfterAdmission(wanted, DeploymentOk(stored)).snap == stored
  {
  }

  lemma RetryReplays(d: Data, fleet: Fleet, id: Id, wanted: Deployment)
    requires Sound(d, fleet) && CommandBound(d, fleet, wanted.command)
    requires wanted.command.key in d.deploymentByKey && d.deploymentByKey[wanted.command.key] == id
    requires id in d.deployments
    requires d.deployments[id].command.request == wanted.command.request && Outstanding(d.deployments[id].status)
    ensures CreateDeployment(d, wanted) == (d, DeploymentOk(d.deployments[id]))
  {
    assert DeploymentsBound(d, fleet);
    hide Keyed, Fences, L.Lifecycle, CommandBound, CreateDeployment;
    SameRequestSameBinding(d, fleet, d.deployments[id].command, wanted.command);
    ReconcileReplays(d, fleet, id, wanted);
  }

  /** The gate before dispatch: the admitted deployment's bindings, compared with what a fresh read finds. */
  ghost predicate GatePasses(d: Data, fleet: Fleet, c: Command, mission: Mission) {
    && BindingAccepted(d, fleet, c.flight, mission)
    && mission.id == c.mission && mission.version == c.missionVersion && mission.digest == c.digest
    && fleet[d.flights[c.flight].aircraft].agent == c.agent
  }

  /** While the stored deployment is outstanding the gate never finds a stale binding, whichever call asks. */
  lemma GateNeverStale(fleet: Fleet, w: World, n: nat, mission: Mission)
    requires Inv(fleet, w) && n in w.calls && w.calls[n].Admitted?
    requires Outstanding(w.d.deployments[w.calls[n].snap.command.deployment].status)
    requires IsCurrentMission(w.d, mission.id) && w.d.missions[mission.id] == mission
    requires mission.flight == w.calls[n].snap.command.flight
    ensures GatePasses(w.d, fleet, w.calls[n].snap.command, mission)
  {
    var c := w.calls[n].snap.command;
    assert CallOk(w.d, fleet, w.calls[n]);
    assert RecordEvolves(w.calls[n].snap, w.d.deployments[c.deployment]);
    assert CommandBound(w.d, fleet, c);
    assert Keyed(w.d) && Fences(w.d, fleet);
    hide Inv, Keyed, Fences, BindingAccepted;
    ReconcileNeverStale(w.d, fleet, c.deployment, mission);
  }

  /* ---- aircraft exclusion and the active flight's mission ---- */

  /** An aircraft has at most one outstanding deployment, at most one active flight, and never both. */
  lemma AircraftExclusive(fleet: Fleet, run: seq<World>, k: nat)
    requires IsRun(fleet, run) && k < |run|
    ensures var d := run[k].d;
      && (forall a, b :: a in d.deployments && b in d.deployments && BothHold(d.deployments[a], d.deployments[b]) ==>
         a == b)
      && (forall f, g :: f in d.flights && g in d.flights && BothFlying(d.flights[f], d.flights[g]) ==> f == g)
      && (forall f, id :: f in d.flights && id in d.deployments ==> !Grounds(d.flights[f], d.deployments[id]))
  {
    RunKeepsInv(fleet, run, k);
  }

  /** For every active flight of a run the newest deployment of its aircraft is verified for its current mission,
      which is what a lookup by aircraft and intent version then finds. */
  lemma ActiveFlightServed(fleet: Fleet, run: seq<World>, k: nat, f: Id)
    requires IsRun(fleet, run) && k < |run| && f in run[k].d.flights && run[k].d.flights[f].status.Flying?
    ensures ServedByNewest(run[k].d, f)
    ensures var flight := run[k].d.flights[f];
      && OneFliesServed(run[k].d, flight.aircraft, flight.intent, flight.intentVersion)
      && !TwoFly(run[k].d, flight.aircraft, flight.intent, flight.intentVersion)
  {
    RunKeepsInv(fleet, run, k);
    assert Keyed(run[k].d) && Fences(run[k].d, fleet) && FlyingServed(run[k].d);
    hide Inv, Keyed, Fences;
    ActiveFlightHasMission(run[k].d, fleet, f);
  }

  /** Every reachable set of intent versions is contiguous, closed behind the newest version, and exclusive. */
  lemma LifecycleReachable(fleet: Fleet, run: seq<World>, k: nat, a: IntentKey, b: IntentKey)
    requires IsRun(fleet, run) && k < |run| && a in run[k].d.intents && b in run[k].d.intents
    ensures var intents := run[k].d.intents;
      && 1 <= a.1 && (forall v :: 1 <= v <= a.1 ==> (a.0, v) in intents)
      && (a.0 == b.0 && a.1 < b.1 ==> !L.Editable(intents[a].status) && !intents[a].status.Active?)
      && (a.0 == b.0 && L.Effective(intents[a].status) && L.Effective(intents[b].status) ==> a == b)
      && (L.BothActive(intents[a], intents[b]) ==> a == b)
  {
    RunKeepsInv(fleet, run, k);
  }
}
