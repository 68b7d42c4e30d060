/** The command deadline: under a clock that never goes back, a deployment is first dispatched only while its
    command is unexpired, provided its calls do not overlap; overlapping calls can dispatch it late. */
module DispatchDeadline {
  import opened Domain
  import opened StoreState
  import opened FleetFences
  import opened DeploymentCalls
  import opened Operations
  import L = IntentLifecycle
  import opened DeploymentGuarantees

  /* ---- one call on its own ---- */

  /** Where a call stands once both context steps are acknowledged at the given clock readings. */
  function Phase(now: int, snap: Deployment, replayed: bool, clearedAt: int, acknowledgedAt: int): Call {
    var gated := AfterGate(now, snap, replayed);
    var cleared := if gated.Clearing? then AfterClear(gated.snap, clearedAt) else gated;
    if cleared.Acknowledging? then AfterAcknowledge(cleared.snap, acknowledgedAt) else cleared
  }

  /** About to begin the first dispatch although the last checked reading was past the deadline. */
  predicate DispatchesLate(call: Call) {
    call.Dispatching? && !call.snap.dispatchStarted && Expired(call.snap.command, call.checkedAt)
  }

  /** An unknown outcome without a dispatch: the mark of a recorded expiry. */
  predicate ExpiryRecorded(dep: Deployment) { dep.status.OutcomeUnknown? && !dep.dispatchStarted }

  /** A call keeps the deadline on every clock exactly when it did not replay a recorded expiry that its own first
      reading still took for unexpired. */
  lemma DeadlineKeptExactly(now: int, snap: Deployment, replayed: bool)
    ensures (forall c, a :: now <= c <= a ==> !DispatchesLate(Phase(now, snap, replayed, c, a))) <==>
            !(ExpiryRecorded(snap) && !Expired(snap.command, now))
  {
    if ExpiryRecorded(snap) && !Expired(snap.command, now) {
      var late := snap.command.expiresAt;
      assert DispatchesLate(Phase(now, snap, replayed, late, late));
    }
  }

  /* ---- timed runs ---- */

  datatype Timed = Timed(w: World, clock: int)

  /** The clock reading a step takes. */
  function Reading(step: Step): Option<int> {
    match step
    case Begin(_, _, _, _, now) => Some(now)
    case Advance(_, ClearContext(_, now)) => Some(now)
    case Advance(_, SetContext(_, now)) => Some(now)
    case Advance(_, Persist(now, _)) => Some(now)
    case Advance(_, Receive(_, _, now)) => Some(now)
    case _ => None
  }

  ghost predicate TimedNext(fleet: Fleet, t: Timed, step: Step, t': Timed) {
    && Next(fleet, t.w, step, t'.w)
    && t.clock <= t'.clock
    && (Reading(step).Some? ==> t'.clock == Reading(step).value)
  }

  function KeyOf(call: Call): Option<Id> {
    match call
    case Planning(wanted) => Some(wanted.command.key)
    case Rereading(desired, _) => Some(desired.command.key)
    case Returned => None
    case Abandoned => None
    case _ => Some(call.snap.command.key)
  }

  /** No two live calls work on the same request. */
  ghost predicate Exclusive(calls: map<nat, Call>) {
    forall n, m :: n in calls && m in calls && SameKey(calls[n], calls[m]) ==> n == m
  }

  predicate SameKey(a: Call, b: Call) { KeyOf(a).Some? && KeyOf(a) == KeyOf(b) }

  /* ---- the deadline invariant ---- */

  ghost predicate DeadlineInv(t: Timed) {
    && ExpiriesPassed(t.w.d, t.clock)
    && forall n :: n in t.w.calls ==> OnTime(t.w.d, t.clock, t.w.calls[n])
  }

  /** An unknown outcome without dispatch implies that the deadline has passed. */
  ghost predicate ExpiriesPassed(d: Data, clock: int) {
    forall id :: id in d.deployments && ExpiryRecorded(d.deployments[id]) ==>
      d.deployments[id].command.expiresAt <= clock
  }

  /** Recorded expiries of the request were past already when the call read its first clock. */
  ghost predicate ExpiredBefore(d: Data, key: Id, now: int) {
    forall id :: id in d.deployments && d.deployments[id].command.key == key && ExpiryRecorded(d.deployments[id]) ==>
      d.deployments[id].command.expiresAt <= now
  }

  ghost predicate OnTime(d: Data, clock: int, call: Call) {
    match call
    case Planning(wanted) =>
      wanted.updatedAt <= clock && wanted.status.Pending? && ExpiredBefore(d, wanted.command.key, wanted.updatedAt)
    case Admitted(now, snap, _) => now <= clock && (ExpiryRecorded(snap) ==> Expired(snap.command, now))
    case Clearing(snap) => !ExpiryRecorded(snap)
    case Acknowledging(snap) => !ExpiryRecorded(snap)
    case Expiring(snap, expiredAt) => Expired(snap.command, expiredAt) && expiredAt <= clock
    case Dispatching(snap, checkedAt, _) => !DispatchesLate(call)
    case Reporting(snap, desired) => desired.dispatchStarted
    case _ => true
  }

  lemma LaterStillOnTime(d: Data, clock: int, later: int, call: Call)
    requires OnTime(d, clock, call) && clock <= later
    ensures OnTime(d, later, call)
  {
  }

  /** A call other than the one that wrote `key` sees none of its records change. */
  lemma OtherStaysOnTime(d: Data, after: Data, clock: int, call: Call, key: Id)
    requires OnTime(d, clock, call) && KeyOf(call) != Some(key)
    requires forall id :: id in after.deployments && after.deployments[id].command.key != key ==>
               id in d.deployments && after.deployments[id] == d.deployments[id]
    ensures OnTime(after, clock, call)
  {
  }

  /** Only records of the call's own request change. */
  ghost predicate WritesOwnKey(d: Data, after: Data, call: Call) {
    forall id :: id in after.deployments && (id !in d.deployments || after.deployments[id] != d.deployments[id]) ==>
      KeyOf(call) == Some(after.deployments[id].command.key)
  }

  /** What one call's step keeps of the deadline invariant. */
  ghost predicate KeepsDeadline(d: Data, after: Data, call: Call, next: Call, clock: int) {
    ExpiriesPassed(after, clock) && OnTime(after, clock, next) && WritesOwnKey(d, after, call) &&
    (KeyOf(next).Some? ==> KeyOf(next) == KeyOf(call))
  }

  lemma AdmissionOnTime(d: Data, clock: int, wanted: Deployment)
    requires Keyed(d) && ExpiriesPassed(d, clock) && OnTime(d, clock, Planning(wanted))
    ensures var r := CreateDeployment(d, wanted);
      KeepsDeadline(d, r.0, Planning(wanted), AfterAdmission(wanted, r.1), clock)
  {
    assert KeyedDeployments(d.deployments, d.deploymentByKey);
    var r := CreateDeployment(d, wanted);
    assert r.0 == d || r.0.deployments == d.deployments[wanted.command.deployment := wanted.(revision := 0)] by {
      hide Keyed, AdmissionBlocked, NoIntent, KeyedDeployments;
    }
    assert r.1.DeploymentOk? ==> Replays(d, wanted, r.1.deployment) by {
      hide Keyed, AdmissionBlocked, NoIntent;
    }
    hide CreateDeployment, Keyed, KeyedDeployments;
    AdmissionWrites(d, r.0, clock, wanted);
    AdmissionGoesOn(r.0, clock, d, wanted, r.1);
  }

  /** The deployment handed to the call is the stored one of its request, or the one just planned. */
  ghost predicate Replays(d: Data, wanted: Deployment, dep: Deployment) {
    || dep == wanted.(revision := 0)
    || (dep.command.key == wanted.command.key && dep.command.deployment in d.deployments &&
      d.deployments[dep.command.deployment] == dep)
  }

  lemma AdmissionWrites(d: Data, after: Data, clock: int, wanted: Deployment)
    requires ExpiriesPassed(d, clock) && wanted.status.Pending?
    requires after == d || after.deployments == d.deployments[wanted.command.deployment := wanted.(revision := 0)]
    ensures ExpiriesPassed(after, clock) && WritesOwnKey(d, after, Planning(wanted))
  {
  }

  lemma AdmissionGoesOn(after: Data, clock: int, d: Data, wanted: Deployment, r: DeploymentResult)
    requires OnTime(d, clock, Planning(wanted)) && (r.DeploymentOk? ==> Replays(d, wanted, r.deployment))
    ensures var next := AfterAdmission(wanted, r);
      OnTime(after, clock, next) && (KeyOf(next).Some? ==> KeyOf(next) == KeyOf(Planning(wanted)))
  {
  }

  /** What a swap may write: a marker on a record it may still dispatch, an expiry past the deadline, or a record
      that is not a recorded expiry. */
  predicate TimelyWrite(written: Deployment, clock: int) {
    ExpiryRecorded(written) ==> written.command.expiresAt <= clock
  }

  lemma SwapOnTime(d: Data, after: Data, clock: int, call: Call, base: Deployment, written: Deployment, ok: bool)
    requires Tracked(d, base) && written.command == base.command && Swaps(d, after, base, written, ok)
    requires ExpiriesPassed(d, clock) && TimelyWrite(written, clock) && KeyOf(call) == Some(base.command.key)
    ensures ExpiriesPassed(after, clock) && WritesOwnKey(d, after, call)
  {
    SwapReplacesSnapshot(d, after, base, written, ok);
    hide Swaps, Tracked;
    if ok {
      assert after.deployments == d.deployments[base.command.deployment := WithRevision(written, base)];
    }
  }

  lemma ProposalTimely(d: Data, fleet: Fleet, clock: int, call: Call, e: Event)
    requires CallOk(d, fleet, call) && OnTime(d, clock, call) && Proposal(call, e).Some?
    ensures TimelyWrite(Proposal(call, e).value.1, clock) && KeyOf(call) == Some(Proposal(call, e).value.0.command.key)
    ensures Proposal(call, e).value.1.command == Proposal(call, e).value.0.command
  {
    hide Tracked;
  }

  /** The next phase of a call that did not just admit a deployment is on time again. */
  lemma NextPhaseOnTime(d: Data, fleet: Fleet, clock: int, call: Call, sent: seq<Id>, e: Event, d': Data, call': Call,
                        sent': seq<Id>)
    requires CallOk(d, fleet, call) && OnTime(d, clock, call) && !call.Planning?
    requires Advances(d, call, sent, e, d', call', sent') && EventTime(e, clock) <= clock
    ensures OnTime(d', clock, call') && (KeyOf(call').Some? ==> KeyOf(call') == KeyOf(call))
  {
    hide Swaps, Tracked, CreateDeployment;
  }

  function EventTime(e: Event, clock: int): int {
    match e
    case ClearContext(_, now) => now
    case SetContext(_, now) => now
    case _ => clock
  }

  lemma CallKeepsDeadline(d: Data, fleet: Fleet, clock: int, call: Call, sent: seq<Id>, e: Event, d': Data, call': Call,
                          sent': seq<Id>)
    requires Keyed(d) && CallOk(d, fleet, call) && OnTime(d, clock, call) && ExpiriesPassed(d, clock)
    requires Advances(d, call, sent, e, d', call', sent') && EventTime(e, clock) <= clock
    ensures KeepsDeadline(d, d', call, call', clock)
  {
    hide *;
    if call.Planning? {
      PlanningSteps(d, fleet, call, sent, e, d', call', sent');
      AdmissionOnTime(d, clock, call.wanted);
      AbandonedOnTime(d, d', clock, call, call');
    } else {
      NextPhaseOnTime(d, fleet, clock, call, sent, e, d', call', sent');
      AdvanceKinds(d, fleet, call, sent, e, d', call', sent');
      NotPlanningNotAdmitting(call, e);
      if Proposal(call, e).Some? {
        SwapKeepsDeadline(d, d', fleet, clock, call, e);
      } else {
        NothingWritten(d, call);
      }
      DeadlineKept(d, d', call, call', clock);
    }
  }

  lemma DeadlineKept(d: Data, after: Data, call: Call, next: Call, clock: int)
    requires ExpiriesPassed(after, clock) && OnTime(after, clock, next) && WritesOwnKey(d, after, call)
    requires KeyOf(next).Some? ==> KeyOf(next) == KeyOf(call)
    ensures KeepsDeadline(d, after, call, next, clock)
  {
  }

  lemma NotPlanningNotAdmitting(call: Call, e: Event)
    requires !call.Planning?
    ensures !Admits(call, e)
  {
  }

  lemma AbandonedOnTime(d: Data, d': Data, clock: int, call: Call, call': Call)
    requires ExpiriesPassed(d, clock) && call.Planning?
    ensures var r := CreateDeployment(d, call.wanted);
      KeepsDeadline(d, r.0, call, AfterAdmission(call.wanted, r.1), clock) && Over(call') && (d' == d || d' == r.0) ==>
        KeepsDeadline(d, d', call, call', clock)
  {
    hide CreateDeployment, AfterAdmission;
  }

  lemma NothingWritten(d: Data, call: Call)
    ensures WritesOwnKey(d, d, call)
  {
  }

  lemma SwapKeepsDeadline(d: Data, d': Data, fleet: Fleet, clock: int, call: Call, e: Event)
    requires CallOk(d, fleet, call) && OnTime(d, clock, call) && ExpiriesPassed(d, clock) && Proposal(call, e).Some?
    requires var p := Proposal(call, e).value; Tracked(d, p.0) && exists ok :: Swaps(d, d', p.0, p.1, ok)
    ensures ExpiriesPassed(d', clock) && WritesOwnKey(d, d', call)
  {
    hide *;
    ProposalTimely(d, fleet, clock, call, e);
    var base, written := Proposal(call, e).value.0, Proposal(call, e).value.1;
    var ok :| Swaps(d, d', base, written, ok);
    SwapOnTime(d, d', clock, call, base, written, ok);
  }

  /** Steps outside the deployment calls leave every deployment alone. */
  lemma OtherStepsKeepDeployments(fleet: Fleet, w: World, step: Step, w': World)
    requires Next(fleet, w, step, w') && !step.Advance?
    ensures w'.d.deployments == w.d.deployments
    ensures !step.Begin? ==> w'.calls == w.calls
  {
    hide IntentCall, FleetCall, MayBegin, NewDeployment;
    if IntentCall(w.d, w.seen, step, w'.d) {
      IntentCallKeepsDeployments(w.d, w.seen, step, w'.d);
    } else if FleetCall(w.d, w.seen, w.seenFlights, step, w'.d) {
      FleetCallKeepsDeployments(w.d, w.seen, w.seenFlights, step, w'.d);
    }
  }

  lemma IntentCallKeepsDeployments(d: Data, seen: set<Intent>, step: Step, after: Data)
    requires IntentCall(d, seen, step, after)
    ensures after.deployments == d.deployments
  {
    hide UpdateIntent, AcceptIntent, ActivateIntent, ReplaceIntent, WithRequest;
    match step
    case Transition(i, next, request) =>
      IntentWritesKeepDeployments(d, i.(status := next), i.revision);
      RequestKeepsDeployments(UpdateIntent(d, i.(status := next), i.revision), request);
    case Accept(i, request) =>
      IntentWritesKeepDeployments(d, i.(status := Accepted), i.revision);
      RequestKeepsDeployments(AcceptIntent(d, i.(status := Accepted), i.revision), request);
    case Activate(i) => IntentWritesKeepDeployments(d, i.(status := Active), i.revision);
    case Modify(i, details, volumes) =>
      ReplaceKeepsDeployments(d, i.version, i.revision, L.Modified(i, details), volumes);
    case _ =>
  }

  lemma IntentWritesKeepDeployments(d: Data, intent: Intent, expected: int)
    ensures UpdateIntent(d, intent, expected).0.deployments == d.deployments
    ensures AcceptIntent(d, intent, expected).0.deployments == d.deployments
    ensures ActivateIntent(d, intent, expected).0.deployments == d.deployments
  {
    hide IntentWriteGuard, OtherActive, UpdatedIntents, AcceptedIntents, CurrentIs, NoIntent;
  }

  lemma ReplaceKeepsDeployments(d: Data, expectedVersion: int, expected: int, intent: Intent, volumes: seq<Volume>)
    ensures ReplaceIntent(d, expectedVersion, expected, intent, volumes).0.deployments == d.deployments
  {
    hide IntentWriteGuard, ReplacedIntents, ReplacedVolumes, InScope, WithWritten, RetireOlder, WriteVolumes;
  }

  lemma RequestKeepsDeployments(step: (Data, Outcome), request: Option<Publication>)
    ensures WithRequest(step, request).0.deployments == step.0.deployments
  {
  }

  lemma FleetCallKeepsDeployments(d: Data, seen: set<Intent>, seenFlights: set<Flight>, step: Step, after: Data)
    requires FleetCall(d, seen, seenFlights, step, after)
    ensures after.deployments == d.deployments
  {
    hide MayStart, FlightBindingCurrent, NoIntent, FlightFenced, IsNextVersion;
  }

  lemma OnTimeByDeployments(d: Data, after: Data, clock: int, call: Call)
    requires OnTime(d, clock, call) && after.deployments == d.deployments
    ensures OnTime(after, clock, call)
  {
  }

  lemma LaterClock(t: Timed, clock: int)
    requires DeadlineInv(t) && t.clock <= clock
    ensures DeadlineInv(t.(clock := clock))
  {
    forall n | n in t.w.calls ensures OnTime(t.w.d, clock, t.w.calls[n]) {
      LaterStillOnTime(t.w.d, t.clock, clock, t.w.calls[n]);
    }
  }

  lemma AdvanceKeepsDeadline(fleet: Fleet, w: World, clock: int, n: nat, e: Event, w': World)
    requires n in w.calls && n in w'.calls && w'.calls == w.calls[n := w'.calls[n]]
    requires Exclusive(w.calls) && DeadlineInv(Timed(w, clock))
    requires Keyed(w.d) && CallOk(w.d, fleet, w.calls[n]) && EventTime(e, clock) <= clock
    requires Advances(w.d, w.calls[n], w.sent, e, w'.d, w'.calls[n], w'.sent)
    ensures DeadlineInv(Timed(w', clock))
  {
    hide Keyed, CallOk, Advances, OnTime, ExpiriesPassed, EventTime;
    CallKeepsDeadline(w.d, fleet, clock, w.calls[n], w.sent, e, w'.d, w'.calls[n], w'.sent);
    forall m | m in w'.calls && m != n ensures OnTime(w'.d, clock, w'.calls[m]) {
      var key := if KeyOf(w.calls[n]).Some? then KeyOf(w.calls[n]).value else NO_ID;
      if KeyOf(w.calls[n]).Some? {
        assert !SameKey(w.calls[m], w.calls[n]);
        OtherStaysOnTime(w.d, w'.d, clock, w.calls[m], key);
      } else {
        ReturnedStays(w.d, w.calls[n], w.sent, e, w'.d, w'.calls[n], w'.sent);
      }
    }
  }

  lemma ReturnedStays(d: Data, call: Call, sent: seq<Id>, e: Event, d': Data, call': Call, sent': seq<Id>)
    requires Advances(d, call, sent, e, d', call', sent')
    ensures KeyOf(call).Some?
  {
    hide Swaps, CreateDeployment;
  }

  lemma DeadlineStep(fleet: Fleet, t: Timed, step: Step, t': Timed)
    requires Inv(fleet, t.w) && DeadlineInv(t) && Exclusive(t.w.calls) && TimedNext(fleet, t, step, t')
    ensures DeadlineInv(t')
  {
    StepShape(fleet, t, step, t');
    hide *;
    LaterClock(t, t'.clock);
    if step.Advance? {
      AdvanceOf(fleet, t.w, step.caller, step.event, t'.w);
      CallsShape(fleet, t.w, step, t'.w);
      KeyedInv(fleet, t.w);
      TimedIs(t, t');
      AdvanceKeepsDeadline(fleet, t.w, t'.clock, step.caller, step.event, t'.w);
    } else {
      QuietStep(fleet, t, step, t');
    }
  }

  lemma StepShape(fleet: Fleet, t: Timed, step: Step, t': Timed)
    requires TimedNext(fleet, t, step, t')
    ensures Next(fleet, t.w, step, t'.w) && t.clock <= t'.clock
    ensures step.Advance? ==> step.caller in t.w.calls && EventTime(step.event, t'.clock) <= t'.clock
  {
    hide Advances, IntentCall, FleetCall;
  }

  lemma CallsShape(fleet: Fleet, w: World, step: Step, w': World)
    requires step.Advance? && Next(fleet, w, step, w')
    ensures step.caller in w'.calls && w'.calls == w.calls[step.caller := w'.calls[step.caller]]
  {
    hide Advances;
  }

  lemma KeyedInv(fleet: Fleet, w: World)
    requires Inv(fleet, w)
    ensures Keyed(w.d)
  {
    hide Keyed, Fences, SeenOk, SeenFlightsOk, CallsOk, SentOk;
  }

  lemma TimedIs(t: Timed, t': Timed)
    ensures t.(clock := t'.clock) == Timed(t.w, t'.clock) && Timed(t'.w, t'.clock) == t'
  {
  }

  /** Steps outside the deployment calls change no deployment, and a new call starts on time. */
  lemma QuietStep(fleet: Fleet, t: Timed, step: Step, t': Timed)
    requires !step.Advance? && TimedNext(fleet, t, step, t') && DeadlineInv(t.(clock := t'.clock))
    ensures DeadlineInv(t')
  {
    OtherStepsKeepDeployments(fleet, t.w, step, t'.w) by { hide DeadlineInv; }
    forall n | n in t'.w.calls && n in t.w.calls && t'.w.calls[n] == t.w.calls[n]
      ensures OnTime(t'.w.d, t'.clock, t'.w.calls[n]) {
      OnTimeByDeployments(t.w.d, t'.w.d, t'.clock, t.w.calls[n]);
    }
    if step.Begin? {
      hide IntentCall, FleetCall, MayBegin;
    } else {
      hide Next, OnTime;
    }
  }

  ghost predicate IsTimedRun(fleet: Fleet, run: seq<Timed>) {
    |run| > 0 && run[0].w == START && forall k :: 0 <= k < |run| - 1 ==> TimedFollows(fleet, run[k], run[k + 1])
  }

  ghost predicate TimedFollows(fleet: Fleet, t: Timed, t': Timed) { exists step :: TimedNext(fleet, t, step, t') }

  ghost predicate NeverOverlapping(run: seq<Timed>) {
    forall k :: 0 <= k < |run| ==> Exclusive(run[k].w.calls)
  }

  lemma {:induction false} TimedRunInv(fleet: Fleet, run: seq<Timed>, k: nat)
    requires IsTimedRun(fleet, run) && k < |run|
    ensures Inv(fleet, run[k].w) && (NeverOverlapping(run[..k]) ==> DeadlineInv(run[k]))
  {
    if k == 0 {
      hide Inv;
      StartInv(fleet);
    } else {
      hide *;
      TimedFollowsAt(fleet, run, k - 1);
      OverlapPrefix(run, k);
      TimedRunInv(fleet, run, k - 1);
      TimedStepInv(fleet, run[k - 1], run[k]);
    }
  }

  lemma TimedFollowsAt(fleet: Fleet, run: seq<Timed>, k: nat)
    requires IsTimedRun(fleet, run) && k + 1 < |run|
    ensures TimedFollows(fleet, run[k], run[k + 1])
  {
    hide TimedFollows;
  }

  lemma OverlapPrefix(run: seq<Timed>, k: nat)
    requires 0 < k <= |run|
    ensures NeverOverlapping(run[..k]) ==> NeverOverlapping(run[..k - 1]) && Exclusive(run[k - 1].w.calls)
  {
    hide Exclusive;
    assert forall i :: 0 <= i < k - 1 ==> run[..k - 1][i] == run[..k][i];
    assert run[..k][k - 1] == run[k - 1];
  }

  lemma TimedStepInv(fleet: Fleet, t: Timed, t': Timed)
    requires Inv(fleet, t.w) && TimedFollows(fleet, t, t')
    ensures Inv(fleet, t'.w) && (DeadlineInv(t) && Exclusive(t.w.calls) ==> DeadlineInv(t'))
  {
    hide Inv, Next, DeadlineInv, Exclusive;
    var step :| TimedNext(fleet, t, step, t');
    NextKeepsInv(fleet, t.w, step, t'.w);
    if DeadlineInv(t) && Exclusive(t.w.calls) {
      DeadlineStep(fleet, t, step, t');
    }
  }

  /** A dispatch begins when the marker of some call replaces an undispatched record. */
  ghost predicate BeginsDispatch(d: Data, after: Data, id: Id) {
    id in d.deployments && id in after.deployments && !d.deployments[id].dispatchStarted &&
    after.deployments[id].dispatchStarted
  }

  lemma OnlyMarkersBegin(d: Data, fleet: Fleet, call: Call, sent: seq<Id>, e: Event, d': Data, call': Call,
                         sent': seq<Id>, id: Id)
    requires CallOk(d, fleet, call) && Advances(d, call, sent, e, d', call', sent') && BeginsDispatch(d, d', id)
    ensures call.Dispatching? && call.snap == d.deployments[id] && !call.snap.dispatchStarted
  {
    AdvanceKinds(d, fleet, call, sent, e, d', call', sent');
    var p := Proposal(call, e);
    if call.Planning? {
      hide Advances, AdmissionBlocked, NoIntent;
    } else {
      hide Advances, Swaps, Tracked;
      var ok :| Swaps(d, d', p.value.0, p.value.1, ok);
      SwapReplacesSnapshot(d, d', p.value.0, p.value.1, ok);
      assert d'.deployments == d.deployments[p.value.0.command.deployment := WithRevision(p.value.1, p.value.0)];
      assert id == p.value.0.command.deployment;
    }
  }

  /** In a run whose calls never overlap on one request, every first dispatch follows a check of the clock that
      was before the command's deadline. */
  lemma FirstDispatchBeforeDeadline(fleet: Fleet, run: seq<Timed>, k: nat, id: Id)
    requires IsTimedRun(fleet, run) && k + 1 < |run| && NeverOverlapping(run)
    requires BeginsDispatch(run[k].w.d, run[k + 1].w.d, id)
    ensures exists n :: n in run[k].w.calls && ChecksInTime(run[k].w.calls[n], run[k].w.d.deployments[id])
  {
    TimedRunInv(fleet, run, k);
    assert NeverOverlapping(run[..k]);
    assert TimedFollows(fleet, run[k], run[k + 1]);
    var step :| TimedNext(fleet, run[k], step, run[k + 1]);
    hide IsTimedRun, NeverOverlapping, Inv;
    DispatchInTime(fleet, run[k], step, run[k + 1], id);
  }

  /** The call is about to write its marker over the record, and last checked the clock before the deadline. */
  predicate ChecksInTime(call: Call, record: Deployment) {
    call.Dispatching? && call.snap == record && call.checkedAt < record.command.expiresAt
  }

  lemma DispatchInTime(fleet: Fleet, t: Timed, step: Step, t': Timed, id: Id)
    requires Inv(fleet, t.w) && DeadlineInv(t) && TimedNext(fleet, t, step, t') && BeginsDispatch(t.w.d, t'.w.d, id)
    ensures exists n :: n in t.w.calls && ChecksInTime(t.w.calls[n], t.w.d.deployments[id])
  {
    assert Next(fleet, t.w, step, t'.w) by { hide Next, Inv; }
    hide *;
    DispatchIsAdvance(fleet, t.w, step, t'.w, id);
    AdvanceOf(fleet, t.w, step.caller, step.event, t'.w);
    OnlyMarkersBegin(t.w.d, fleet, t.w.calls[step.caller], t.w.sent, step.event, t'.w.d, t'.w.calls[step.caller],
      t'.w.sent, id);
    OnTimeCheck(t, step.caller, id);
  }

  lemma OnTimeCheck(t: Timed, n: nat, id: Id)
    requires n in t.w.calls && id in t.w.d.deployments && t.w.calls[n].Dispatching?
    requires !t.w.calls[n].snap.dispatchStarted
    requires t.w.calls[n].snap == t.w.d.deployments[id] && DeadlineInv(t)
    ensures ChecksInTime(t.w.calls[n], t.w.d.deployments[id])
  {
    assert OnTime(t.w.d, t.clock, t.w.calls[n]);
  }

  lemma DispatchIsAdvance(fleet: Fleet, w: World, step: Step, w': World, id: Id)
    requires Next(fleet, w, step, w') && BeginsDispatch(w.d, w'.d, id)
    ensures step.Advance? && step.caller in w.calls
  {
    if !step.Advance? {
      OtherStepsKeepDeployments(fleet, w, step, w');
    }
    hide IntentCall, FleetCall, Advances;
  }

  /* ---- overlapping calls ---- */

  /** An open request that was never dispatched, with its binding still readable. */
  ghost predicate Undispatched(w: World, id: Id) {
    && id in w.d.deployments
    && var dep := w.d.deployments[id];
       && Outstanding(dep.status) && !dep.status.OutcomeUnknown? && !dep.dispatchStarted
       && dep.command.key in w.d.deploymentByKey && w.d.deploymentByKey[dep.command.key] == id
  }

  function With(w: World, d: Data, n: nat, call: Call): World {
    w.(d := d, calls := w.calls[n := call])
  }

  lemma CallStep(fleet: Fleet, t: Timed, n: nat, e: Event, d': Data, call': Call, clock: int)
    requires n in t.w.calls && Advances(t.w.d, t.w.calls[n], t.w.sent, e, d', call', t.w.sent)
    requires t.clock <= clock && (Reading(Advance(n, e)).Some? ==> Reading(Advance(n, e)).value == clock)
    ensures TimedFollows(fleet, t, Timed(With(t.w, d', n, call'), clock))
  {
    hide Advances;
    assert TimedNext(fleet, t, Advance(n, e), Timed(With(t.w, d', n, call'), clock));
  }

  /** The call that asks again for the deployment `id` at the reading `now`. */
  function Retry(d: Data, fleet: Fleet, id: Id, now: int): Deployment
    requires id in d.deployments && d.deployments[id].command.mission in d.missions
    requires d.deployments[id].command.flight in d.flights && d.deployments[id].command.aircraft in fleet
  {
    var c := d.deployments[id].command;
    NewDeployment(d.missions[c.mission], d.flights[c.flight], fleet[c.aircraft], Fresh(id + 1, 0, 0, 0), c.key, now)
  }

  lemma RetryBegins(fleet: Fleet, t: Timed, id: Id, n: nat, now: int) returns (wanted: Deployment)
    requires Sound(t.w.d, fleet) && id in t.w.d.deployments && n !in t.w.calls && t.clock <= now
    ensures TimedFollows(fleet, t, Timed(With(t.w, t.w.d, n, Planning(wanted)), now))
    ensures RetriesRequest(t.w.d, fleet, id, now, wanted)
  {
    hide *;
    wanted := PlannedRetry(t.w.d, fleet, id, now);
    var c := t.w.d.deployments[id].command;
    BeginStep(fleet, t, t.w.d.missions[c.mission], Fresh(id + 1, 0, 0, 0), c.key, n, now);
  }

  lemma PlannedRetry(d: Data, fleet: Fleet, id: Id, now: int) returns (wanted: Deployment)
    requires Sound(d, fleet) && id in d.deployments
    ensures RetriesRequest(d, fleet, id, now, wanted)
    ensures var c := d.deployments[id].command;
      && c.mission in d.missions && MayBegin(d, fleet, d.missions[c.mission])
      && d.missions[c.mission].flight in d.flights && d.flights[d.missions[c.mission].flight].aircraft in fleet
      && var f := d.flights[d.missions[c.mission].flight];
         wanted == NewDeployment(d.missions[c.mission], f, fleet[f.aircraft], Fresh(id + 1, 0, 0, 0), c.key, now)
  {
    RetryBound(d, fleet, id, now);
    wanted := Retry(d, fleet, id, now);
    hide Sound, NewDeployment, MayBegin, RetriesRequest;
  }

  lemma BeginStep(fleet: Fleet, t: Timed, m: Mission, ids: Fresh, key: Id, n: nat, now: int)
    requires n !in t.w.calls && t.clock <= now && MayBegin(t.w.d, fleet, m)
    ensures var f := t.w.d.flights[m.flight];
      TimedFollows(fleet, t, Timed(With(t.w, t.w.d, n, Planning(NewDeployment(m, f, fleet[f.aircraft], ids, key, now))),
        now))
  {
    hide NewDeployment;
    var f := t.w.d.flights[m.flight];
    var t' := Timed(With(t.w, t.w.d, n, Planning(NewDeployment(m, f, fleet[f.aircraft], ids, key, now))), now);
    assert TimedNext(fleet, t, Begin(n, m, ids, key, now), t');
  }

  ghost predicate RetriesRequest(d: Data, fleet: Fleet, id: Id, now: int, wanted: Deployment)
    requires id in d.deployments
  {
    var c := d.deployments[id].command;
    && wanted.updatedAt == now && wanted.command.deployment == id + 1 && wanted.command.key == c.key
    && wanted.command.request == c.request && CommandBound(d, fleet, wanted.command)
  }

  lemma RetryBound(d: Data, fleet: Fleet, id: Id, now: int)
    requires Sound(d, fleet) && id in d.deployments
    ensures var c := d.deployments[id].command;
      && CommandBound(d, fleet, c) && d.missions[c.mission].id == c.mission && d.missions[c.mission].flight == c.flight
      && MayBegin(d, fleet, d.missions[c.mission]) && d.flights[c.flight].aircraft == c.aircraft
    ensures RetriesRequest(d, fleet, id, now, Retry(d, fleet, id, now))
  {
    var c := d.deployments[id].command;
    assert CommandBound(d, fleet, c);
    assert MissionsBound(d) && KeyedMissions(d.missions, d.missionByKey) && KeyedFlights(d.flights);
    hide Sound;
  }

  lemma RetryAdmitted(fleet: Fleet, t: Timed, n: nat, id: Id)
    requires Sound(t.w.d, fleet) && n in t.w.calls && t.w.calls[n].Planning? && id in t.w.d.deployments
    requires Outstanding(t.w.d.deployments[id].status)
    requires RetriesRequest(t.w.d, fleet, id, t.w.calls[n].wanted.updatedAt, t.w.calls[n].wanted)
    requires var key := t.w.d.deployments[id].command.key;
      key in t.w.d.deploymentByKey && t.w.d.deploymentByKey[key] == id
    ensures var call := Admitted(t.w.calls[n].wanted.updatedAt, t.w.d.deployments[id], true);
      TimedFollows(fleet, t, Timed(With(t.w, t.w.d, n, call), t.clock))
  {
    hide *;
    var wanted := t.w.calls[n].wanted;
    RequestFacts(t.w.d, fleet, id, wanted.updatedAt, wanted);
    RetryReplays(t.w.d, fleet, id, wanted);
    SoundKeys(t.w.d, fleet, id);
    AdmitAdvances(t.w.d, wanted, t.w.d.deployments[id], t.w.sent);
    PlainStep(t, n, Admit(true));
    CallStep(fleet, t, n, Admit(true), t.w.d, Admitted(wanted.updatedAt, t.w.d.deployments[id], true), t.clock);
  }

  lemma PlainStep(t: Timed, n: nat, e: Event)
    requires n in t.w.calls && e.Admit?
    ensures t.w.calls[n].Planning? ==> t.w.calls[n] == Planning(t.w.calls[n].wanted)
    ensures Reading(Advance(n, e)).None?
  {
  }

  lemma RequestFacts(d: Data, fleet: Fleet, id: Id, now: int, wanted: Deployment)
    requires id in d.deployments && RetriesRequest(d, fleet, id, now, wanted)
    ensures wanted.command.key == d.deployments[id].command.key && CommandBound(d, fleet, wanted.command)
    ensures d.deployments[id].command.request == wanted.command.request && wanted.command.deployment != id
  {
    hide CommandBound;
  }

  lemma AdmitAdvances(d: Data, wanted: Deployment, stored: Deployment, sent: seq<Id>)
    requires CreateDeployment(d, wanted) == (d, DeploymentOk(stored)) && Outstanding(stored.status)
    requires stored.command.request == wanted.command.request && stored.command.deployment != wanted.command.deployment
    ensures Advances(d, Planning(wanted), sent, Admit(true), d, Admitted(wanted.updatedAt, stored, true), sent)
  {
    hide CreateDeployment;
  }

  lemma SoundKeys(d: Data, fleet: Fleet, id: Id)
    requires Sound(d, fleet) && id in d.deployments
    ensures d.deployments[id].command.deployment == id
  {
  }

  ghost predicate IsPath(fleet: Fleet, run: seq<Timed>) {
    forall k :: 0 <= k < |run| - 1 ==> TimedFollows(fleet, run[k], run[k + 1])
  }

  /** A late first dispatch ends the run: the marker is written although the dispatching call's last check of the
      clock was at or past the deadline. */
  ghost predicate EndsLate(run: seq<Timed>, id: Id) {
    && |run| >= 2
    && var before, after := run[|run| - 2], run[|run| - 1];
       && BeginsDispatch(before.w.d, after.w.d, id)
       && before.w.d.deployments[id].command.expiresAt <= before.clock
       && !exists n :: n in before.w.calls && ChecksInTime(before.w.calls[n], before.w.d.deployments[id])
  }

  /** A call that planned before the deadline and is admitted after another call recorded the expiry. */
  ghost predicate StalePlan(fleet: Fleet, t: Timed, n: nat, id: Id) {
    && id in t.w.d.deployments && n in t.w.calls && t.w.calls[n].Planning?
    && var dep := t.w.d.deployments[id];
       && ExpiryRecorded(dep) && dep.command.expiresAt <= t.clock
       && RetriesRequest(t.w.d, fleet, id, t.w.calls[n].wanted.updatedAt, t.w.calls[n].wanted)
       && t.w.calls[n].wanted.updatedAt < dep.command.expiresAt
       && dep.command.key in t.w.d.deploymentByKey && t.w.d.deploymentByKey[dep.command.key] == id
  }

  lemma StalePlanDispatchesLate(fleet: Fleet, t: Timed, n: nat, id: Id) returns (run: seq<Timed>)
    requires Sound(t.w.d, fleet) && StalePlan(fleet, t, n, id)
    ensures |run| == 5 && run[0] == t && IsPath(fleet, run)
    ensures run[3].clock == t.clock && run[4].clock == t.clock && run[3].w.d == t.w.d
    ensures run[3].w == With(t.w, t.w.d, n, Dispatching(t.w.d.deployments[id], t.clock, true))
    ensures BeginsDispatch(t.w.d, run[4].w.d, id)
  {
    hide *;
    StalePlanFacts(fleet, t, n, id);
    var d, rec, now := t.w.d, t.w.d.deployments[id], t.clock;
    SoundKeys(d, fleet, id);
    RetryAdmitted(fleet, t, n, id);
    var planned := t.w.calls[n].wanted.updatedAt;
    var w1 := With(t.w, d, n, Admitted(planned, rec, true));
    WithHas(t.w, d, n, Admitted(planned, rec, true));
    GateStep(fleet, Timed(w1, now), n, planned, rec);
    WithTwice(t.w, d, n, Admitted(planned, rec, true), Clearing(rec));
    var w2 := With(t.w, d, n, Clearing(rec));
    WithHas(t.w, d, n, Clearing(rec));
    ClearStep(fleet, Timed(w2, now), n, rec);
    WithTwice(t.w, d, n, Clearing(rec), Dispatching(rec, now, true));
    var w3 := With(t.w, d, n, Dispatching(rec, now, true));
    WithHas(t.w, d, n, Dispatching(rec, now, true));
    var t4 := MarkStep(fleet, Timed(w3, now), n, rec, now);
    run := [t, Timed(w1, now), Timed(w2, now), Timed(w3, now), t4];
    FivePath(fleet, run);
  }

  lemma StalePlanFacts(fleet: Fleet, t: Timed, n: nat, id: Id)
    requires StalePlan(fleet, t, n, id)
    ensures id in t.w.d.deployments && n in t.w.calls && t.w.calls[n].Planning?
    ensures var dep := t.w.d.deployments[id];
       && dep.status.OutcomeUnknown? && !dep.dispatchStarted && Outstanding(dep.status) && Expired(dep.command, t.clock)
       && RetriesRequest(t.w.d, fleet, id, t.w.calls[n].wanted.updatedAt, t.w.calls[n].wanted)
       && !Expired(dep.command, t.w.calls[n].wanted.updatedAt)
       && dep.command.key in t.w.d.deploymentByKey && t.w.d.deploymentByKey[dep.command.key] == id
  {
    hide RetriesRequest;
  }

  lemma FivePath(fleet: Fleet, run: seq<Timed>)
    requires |run| == 5 && TimedFollows(fleet, run[0], run[1]) && TimedFollows(fleet, run[1], run[2])
    requires TimedFollows(fleet, run[2], run[3]) && TimedFollows(fleet, run[3], run[4])
    ensures IsPath(fleet, run)
  {
    hide TimedFollows;
  }

  lemma GateStep(fleet: Fleet, t: Timed, n: nat, planned: int, rec: Deployment)
    requires n in t.w.calls && t.w.calls[n] == Admitted(planned, rec, true)
    ensures var next := AfterGate(planned, rec, true); TimedFollows(fleet, t, Timed(With(t.w, t.w.d, n, next), t.clock))
    ensures !Expired(rec.command, planned) ==> AfterGate(planned, rec, true) == Clearing(rec)
    ensures Expired(rec.command, planned) && !rec.status.OutcomeUnknown? ==>
      AfterGate(planned, rec, true) == Expiring(rec, planned)
  {
    CallStep(fleet, t, n, Gate(true), t.w.d, AfterGate(planned, rec, true), t.clock);
  }

  lemma ClearStep(fleet: Fleet, t: Timed, n: nat, rec: Deployment)
    requires n in t.w.calls && t.w.calls[n] == Clearing(rec) && Expired(rec.command, t.clock)
    requires rec.status.OutcomeUnknown?
    ensures TimedFollows(fleet, t, Timed(With(t.w, t.w.d, n, Dispatching(rec, t.clock, true)), t.clock))
  {
    CallStep(fleet, t, n, ClearContext(true, t.clock), t.w.d, Dispatching(rec, t.clock, true), t.clock);
  }

  /** The marker is written over the record when the clock reads `now`. */
  lemma MarkStep(fleet: Fleet, t: Timed, n: nat, rec: Deployment, now: int) returns (after: Timed)
    requires n in t.w.calls && t.w.calls[n].Dispatching? && t.w.calls[n].snap == rec && t.clock <= now
    requires rec.command.deployment in t.w.d.deployments && t.w.d.deployments[rec.command.deployment] == rec
    ensures var marked := WithRevision(Marker(rec, now), rec);
      after == Timed(With(t.w, WithMarker(t.w.d, marked), n, Sending(marked)), now)
    ensures TimedFollows(fleet, t, after)
    ensures !rec.dispatchStarted ==> BeginsDispatch(t.w.d, after.w.d, rec.command.deployment)
  {
    var marked := WithRevision(Marker(rec, now), rec);
    var d := WithMarker(t.w.d, marked);
    assert Swaps(t.w.d, d, rec, Marker(rec, now), true);
    CallStep(fleet, t, n, Persist(now, true), d, Sending(marked), now);
    after := Timed(With(t.w, d, n, Sending(marked)), now);
  }

  function WithMarker(d: Data, marked: Deployment): Data {
    d.(deployments := d.deployments[marked.command.deployment := marked])
  }

  /** A call that plans at the deadline, replays the open record and persists its expiry. */
  lemma ExpiryRecordedBy(fleet: Fleet, t: Timed, n: nat, id: Id) returns (run: seq<Timed>)
    requires Sound(t.w.d, fleet) && Undispatched(t.w, id) && n !in t.w.calls
    requires t.clock <= t.w.d.deployments[id].command.expiresAt
    ensures |run| == 5 && run[0] == t && IsPath(fleet, run) && run[4].clock == t.w.d.deployments[id].command.expiresAt
    ensures var rec := t.w.d.deployments[id]; var written := WithRevision(Expiry(rec, run[4].clock), rec);
      run[4].w == With(t.w, t.w.d.(deployments := t.w.d.deployments[id := written]), n, Returned)
  {
    hide *;
    UndispatchedFacts(t.w, id);
    var d, rec, late := t.w.d, t.w.d.deployments[id], t.w.d.deployments[id].command.expiresAt;
    SoundKeys(d, fleet, id);
    var wanted := RetryBegins(fleet, t, id, n, late);
    var t1 := Timed(With(t.w, d, n, Planning(wanted)), late);
    WithHas(t.w, d, n, Planning(wanted));
    RequestTime(d, fleet, id, late, wanted);
    RetryAdmitted(fleet, t1, n, id);
    WithTwice(t.w, d, n, Planning(wanted), Admitted(late, rec, true));
    var t2 := Timed(With(t.w, d, n, Admitted(late, rec, true)), late);
    WithHas(t.w, d, n, Admitted(late, rec, true));
    GateStep(fleet, t2, n, late, rec);
    WithTwice(t.w, d, n, Admitted(late, rec, true), Expiring(rec, late));
    var t3 := Timed(With(t.w, d, n, Expiring(rec, late)), late);
    WithHas(t.w, d, n, Expiring(rec, late));
    ExpireStep(fleet, t3, n, rec);
    var d4 := d.(deployments := d.deployments[id := WithRevision(Expiry(rec, late), rec)]);
    WithDataToo(t.w, d, n, Expiring(rec, late), d4, Returned);
    run := [t, t1, t2, t3, Timed(With(t.w, d4, n, Returned), late)];
    FivePath(fleet, run);
  }

  lemma UndispatchedFacts(w: World, id: Id)
    requires Undispatched(w, id)
    ensures id in w.d.deployments
    ensures var dep := w.d.deployments[id];
       && Outstanding(dep.status) && !dep.status.OutcomeUnknown? && !dep.dispatchStarted
       && Expired(dep.command, dep.command.expiresAt)
       && dep.command.key in w.d.deploymentByKey && w.d.deploymentByKey[dep.command.key] == id
  {
  }

  lemma RequestTime(d: Data, fleet: Fleet, id: Id, now: int, wanted: Deployment)
    requires id in d.deployments && RetriesRequest(d, fleet, id, now, wanted)
    ensures wanted.updatedAt == now
  {
    hide CommandBound;
  }

  lemma ExpireStep(fleet: Fleet, t: Timed, n: nat, rec: Deployment)
    requires n in t.w.calls && t.w.calls[n] == Expiring(rec, t.clock)
    requires rec.command.deployment in t.w.d.deployments && t.w.d.deployments[rec.command.deployment] == rec
    ensures var d := t.w.d.(deployments :=
      t.w.d.deployments[rec.command.deployment := WithRevision(Expiry(rec, t.clock), rec)]);
      TimedFollows(fleet, t, Timed(With(t.w, d, n, Returned), t.clock))
  {
    var d := t.w.d.(deployments := t.w.d.deployments[rec.command.deployment :=
        WithRevision(Expiry(rec, t.clock), rec)]);
    assert Swaps(t.w.d, d, rec, Expiry(rec, t.clock), true);
    CallStep(fleet, t, n, Persist(t.clock, true), d, Returned, t.clock);
  }

  lemma WithHas(w: World, d: Data, n: nat, call: Call)
    ensures n in With(w, d, n, call).calls && With(w, d, n, call).calls[n] == call && With(w, d, n, call).d == d
    ensures With(w, d, n, call).sent == w.sent
    ensures forall m :: m in w.calls && m != n ==>
      m in With(w, d, n, call).calls && With(w, d, n, call).calls[m] == w.calls[m]
    ensures forall m :: m in With(w, d, n, call).calls && m != n ==> m in w.calls
  {
  }

  lemma WithDataToo(w: World, d: Data, n: nat, first: Call, d': Data, second: Call)
    ensures With(With(w, d, n, first), d', n, second) == With(w, d', n, second)
  {
    assert w.calls[n := first][n := second] == w.calls[n := second];
  }

  lemma WithTwice(w: World, d: Data, n: nat, first: Call, second: Call)
    ensures With(With(w, d, n, first), d, n, second) == With(w, d, n, second)
  {
    assert w.calls[n := first][n := second] == w.calls[n := second];
  }

  lemma RequestAgain(d: Data, after: Data, fleet: Fleet, id: Id, now: int, wanted: Deployment)
    requires id in d.deployments && id in after.deployments
    requires after.deployments[id].command == d.deployments[id].command
    requires after.flights == d.flights && after.missions == d.missions && RetriesRequest(d, fleet, id, now, wanted)
    ensures RetriesRequest(after, fleet, id, now, wanted)
  {
  }

  lemma RecordedExpirySound(d: Data, fleet: Fleet, id: Id, now: int)
    requires Sound(d, fleet) && id in d.deployments && Outstanding(d.deployments[id].status)
    ensures Sound(d.(deployments := d.deployments[id :=
      WithRevision(Expiry(d.deployments[id], now), d.deployments[id])]), fleet)
  {
    SoundKeys(d, fleet, id);
    hide Sound;
    WrittenSound(d, WithRevision(Expiry(d.deployments[id], now), d.deployments[id]), fleet);
  }

  lemma StalePlanMade(fleet: Fleet, t: Timed, after: Timed, a: nat, b: nat, id: Id, wanted: Deployment)
    requires Undispatched(t.w, id) && a != b && b in t.w.calls && t.w.calls[b] == Planning(wanted)
    requires RetriesRequest(t.w.d, fleet, id, wanted.updatedAt, wanted)
    requires var rec := t.w.d.deployments[id];
      && wanted.updatedAt < rec.command.expiresAt <= after.clock
      && after.w == With(t.w, t.w.d.(deployments :=
         t.w.d.deployments[id := WithRevision(Expiry(rec, after.clock), rec)]), a, Returned)
    ensures StalePlan(fleet, after, b, id)
  {
    RequestAgain(t.w.d, after.w.d, fleet, id, wanted.updatedAt, wanted);
    hide RetriesRequest;
  }

  /** Two overlapping calls can dispatch any still undispatched open request after its deadline: one plans before
      the deadline, the other records the expiry, and the first then takes the record for a dispatched one. */
  lemma OverlapDispatchesLate(fleet: Fleet, t: Timed, a: nat, b: nat, id: Id) returns (run: seq<Timed>)
    requires Inv(fleet, t.w) && Undispatched(t.w, id) && a != b && a !in t.w.calls && b !in t.w.calls
    requires t.clock < t.w.d.deployments[id].command.expiresAt
    ensures |run| > 0 && run[0] == t && IsPath(fleet, run) && EndsLate(run, id)
  {
    hide *;
    InvMeansSound(fleet, t.w);
    UndispatchedFacts(t.w, id);
    var deadline := t.w.d.deployments[id].command.expiresAt;
    var wanted := RetryBegins(fleet, t, id, b, deadline - 1);
    RequestTime(t.w.d, fleet, id, deadline - 1, wanted);
    var t1 := Timed(With(t.w, t.w.d, b, Planning(wanted)), deadline - 1);
    WithHas(t.w, t.w.d, b, Planning(wanted));
    StillUndispatched(t, t1, id);
    var left := ExpiryRecordedBy(fleet, t1, a, id);
    StalePlanMade(fleet, t1, left[4], a, b, id, wanted);
    RecordedExpirySound(t.w.d, fleet, id, deadline);
    var rec := t.w.d.deployments[id];
    var expired := t.w.d.(deployments := t.w.d.deployments[id := WithRevision(Expiry(rec, deadline), rec)]);
    WithHas(t1.w, expired, a, Returned);
    var right := StalePlanDispatchesLate(fleet, left[4], b, id);
    run := [t] + left[..4] + right;
    ChainIsPath(fleet, t, left, right);
    NoneInTime(fleet, t.w, expired, a, b, id, wanted, deadline);
    ExpiryKeepsCommand(rec, deadline);
    LateEnd(run, left[4].w, b, id, deadline);
  }

  lemma ExpiryKeepsCommand(rec: Deployment, now: int)
    ensures WithRevision(Expiry(rec, now), rec).command == rec.command
  {
  }

  lemma ChainIsPath(fleet: Fleet, t: Timed, left: seq<Timed>, right: seq<Timed>)
    requires |left| == 5 && |right| == 5 && IsPath(fleet, left) && IsPath(fleet, right)
    requires TimedFollows(fleet, t, left[0]) && left[4] == right[0]
    ensures IsPath(fleet, [t] + left[..4] + right)
  {
    hide TimedFollows;
    var run := [t] + left[..4] + right;
    forall k | 0 <= k < |run| - 1 ensures TimedFollows(fleet, run[k], run[k + 1]) {
      if 1 <= k < 5 {
        assert TimedFollows(fleet, left[k - 1], left[k - 1 + 1]);
      } else if 5 <= k {
        assert TimedFollows(fleet, right[k - 5], right[k - 5 + 1]);
      }
    }
  }

  /** No call of the world holds the newly recorded expiry with a check in time. */
  lemma NoneInTime(fleet: Fleet, w: World, expired: Data, a: nat, b: nat, id: Id, wanted: Deployment, deadline: int)
    requires Inv(fleet, w) && id in w.d.deployments && w.d.deployments[id].command.expiresAt == deadline
    requires var rec := w.d.deployments[id];
      expired == w.d.(deployments := w.d.deployments[id := WithRevision(Expiry(rec, deadline), rec)])
    ensures var rec := expired.deployments[id];
      var last := With(With(With(w, w.d, b, Planning(wanted)), expired, a, Returned), expired, b,
          Dispatching(rec, deadline, true));
      forall n :: n in last.calls ==> !ChecksInTime(last.calls[n], rec)
  {
    var rec := expired.deployments[id];
    InvMeansSound(fleet, w);
    SoundKeys(w.d, fleet, id);
    ExpiryKeepsCommand(w.d.deployments[id], deadline);
    assert w.d.deployments[id].revision < rec.revision;
    hide Sound, Expiry, WithRevision;
    forall n | n in w.calls ensures !ChecksInTime(w.calls[n], rec) {
      InvCall(fleet, w, n);
      SnapshotIsOlder(w.d, fleet, w.calls[n], id, rec);
    }
    hide Inv;
  }

  lemma InvCall(fleet: Fleet, w: World, n: nat)
    requires Inv(fleet, w) && n in w.calls
    ensures CallOk(w.d, fleet, w.calls[n])
  {
    hide Sound, SeenOk, SeenFlightsOk, SentOk, CallOk;
  }

  lemma SnapshotIsOlder(d: Data, fleet: Fleet, call: Call, id: Id, rec: Deployment)
    requires CallOk(d, fleet, call) && id in d.deployments && rec.command == d.deployments[id].command
    requires d.deployments[id].revision < rec.revision && rec.command.deployment == id
    ensures !ChecksInTime(call, rec)
  {
  }

  lemma LateEnd(run: seq<Timed>, w: World, n: nat, id: Id, deadline: int)
    requires |run| == 10 && id in w.d.deployments && run[8].clock >= deadline && BeginsDispatch(w.d, run[9].w.d, id)
    requires w.d.deployments[id].command.expiresAt == deadline
    requires run[8].w == With(w, w.d, n, Dispatching(w.d.deployments[id], deadline, true))
    requires forall m :: m in run[8].w.calls ==> !ChecksInTime(run[8].w.calls[m], w.d.deployments[id])
    ensures EndsLate(run, id)
  {
  }

  lemma StillUndispatched(t: Timed, t1: Timed, id: Id)
    requires Undispatched(t.w, id) && t1.w.d == t.w.d
    ensures Undispatched(t1.w, id)
  {
  }

  /* ---- one call at a time ---- */

  /** The request's marker carries the clock of its write, which no check compares with the deadline. */
  lemma MarkerTellsTime(fleet: Fleet, run: seq<Timed>, k: nat, id: Id)
    requires IsTimedRun(fleet, run) && k + 1 < |run| && BeginsDispatch(run[k].w.d, run[k + 1].w.d, id)
    ensures var marker := run[k + 1].w.d.deployments[id];
      && marker.updatedAt == run[k + 1].clock
      && (marker.updatedAt < marker.command.expiresAt <==>
         run[k + 1].clock < run[k].w.d.deployments[id].command.expiresAt)
  {
    hide *;
    TimedRunInv(fleet, run, k);
    TimedFollowsAt(fleet, run, k);
    MarkerOfStep(fleet, run[k], run[k + 1], id);
  }

  lemma MarkerOfStep(fleet: Fleet, t: Timed, t': Timed, id: Id)
    requires Inv(fleet, t.w) && TimedFollows(fleet, t, t') && BeginsDispatch(t.w.d, t'.w.d, id)
    ensures t'.w.d.deployments[id].updatedAt == t'.clock
    ensures t'.w.d.deployments[id].command == t.w.d.deployments[id].command
  {
    var step := SomeStep(fleet, t, t');
    hide *;
    StepShape(fleet, t, step, t');
    DispatchIsAdvance(fleet, t.w, step, t'.w, id);
    AdvanceOf(fleet, t.w, step.caller, step.event, t'.w);
    var n, e := step.caller, step.event;
    BothStored(t.w.d, t'.w.d, id);
    OnlyMarkersBegin(t.w.d, fleet, t.w.calls[n], t.w.sent, e, t'.w.d, t'.w.calls[n], t'.w.sent, id);
    MarkerStored(t.w.d, fleet, t.w.calls[n], t.w.sent, e, t'.w.d, t'.w.calls[n], t'.w.sent, id);
    WriteReading(fleet, t, n, e, t');
  }

  lemma SomeStep(fleet: Fleet, t: Timed, t': Timed) returns (step: Step)
    requires TimedFollows(fleet, t, t')
    ensures TimedNext(fleet, t, step, t')
  {
    hide TimedNext;
    step :| TimedNext(fleet, t, step, t');
  }

  lemma BothStored(d: Data, d': Data, id: Id)
    requires BeginsDispatch(d, d', id)
    ensures id in d.deployments && id in d'.deployments
  {
  }

  lemma WriteReading(fleet: Fleet, t: Timed, n: nat, e: Event, t': Timed)
    requires TimedNext(fleet, t, Advance(n, e), t') && e.Persist?
    ensures t'.clock == e.now
  {
    hide Next;
  }

  lemma MarkerStored(d: Data, fleet: Fleet, call: Call, sent: seq<Id>, e: Event, d': Data, call': Call, sent': seq<Id>,
                     id: Id)
    requires CallOk(d, fleet, call) && Advances(d, call, sent, e, d', call', sent') && BeginsDispatch(d, d', id)
    requires call.Dispatching? && call.snap == d.deployments[id]
    ensures e.Persist? && d'.deployments[id].updatedAt == e.now
    ensures d'.deployments[id].command == d.deployments[id].command
  {
    hide CallOk, CreateDeployment;
    assert e.Persist?;
  }

  /** No live call works on the request. */
  ghost predicate Unclaimed(calls: map<nat, Call>, key: Id) {
    forall n :: n in calls ==> KeyOf(calls[n]) != Some(key)
  }

  /** The run ends with the marker of call `n`: its last check was before the deadline, and the marker was written when
      the clock read `marked`. */
  ghost predicate EndsMarked(run: seq<Timed>, n: nat, id: Id, marked: int) {
    && |run| >= 2
    && var before, after := run[|run| - 2], run[|run| - 1];
       && BeginsDispatch(before.w.d, after.w.d, id) && after.clock == marked
       && after.w.d.deployments[id].updatedAt == marked
       && n in before.w.calls && ChecksInTime(before.w.calls[n], before.w.d.deployments[id])
  }

  lemma AloneWith(w: World, d: Data, n: nat, call: Call, key: Id)
    requires Exclusive(w.calls) && Unclaimed(w.calls, key) && (KeyOf(call) == Some(key) || KeyOf(call).None?)
    ensures Exclusive(With(w, d, n, call).calls)
  {
  }

  /** Keeping the deadline is a matter of the last check only. One call, with no other call for its request alive, may
      write the first marker at any time after a check before the deadline, also past the deadline. */
  lemma LoneCallMarks(fleet: Fleet, t: Timed, n: nat, id: Id, checked: int, marked: int) returns (run: seq<Timed>)
    requires Inv(fleet, t.w) && Undispatched(t.w, id) && n !in t.w.calls
    requires Exclusive(t.w.calls) && Unclaimed(t.w.calls, t.w.d.deployments[id].command.key)
    requires t.clock <= checked < t.w.d.deployments[id].command.expiresAt && checked <= marked
    ensures |run| == 7 && run[0] == t && IsPath(fleet, run) && NeverOverlapping(run) && EndsMarked(run, n, id, marked)
  {
    hide *;
    InvMeansSound(fleet, t.w);
    UndispatchedFacts(t.w, id);
    SoundKeys(t.w.d, fleet, id);
    var d, rec := t.w.d, t.w.d.deployments[id];
    var wanted, t2 := ReplayPath(fleet, t, n, id, checked);
    var c1, c2, c3, c4 := Admitted(checked, rec, true), Clearing(rec), Acknowledging(rec),
        Dispatching(rec, checked, false);
    NotExpired(rec, checked);
    var t3 := Timed(With(t.w, d, n, c2), checked);
    GateStep(fleet, t2, n, checked, rec);
    WithTwice(t.w, d, n, c1, c2);
    WithHas(t.w, d, n, c2);
    ClearedInTime(fleet, t3, n, rec);
    WithTwice(t.w, d, n, c2, c3);
    var t4 := Timed(With(t.w, d, n, c3), checked);
    WithHas(t.w, d, n, c3);
    AcknowledgedInTime(fleet, t4, n, rec);
    WithTwice(t.w, d, n, c3, c4);
    var t5 := Timed(With(t.w, d, n, c4), checked);
    WithHas(t.w, d, n, c4);
    var t6 := MarkStep(fleet, t5, n, rec, marked);
    var t1 := Timed(With(t.w, d, n, Planning(wanted)), checked);
    run := [t, t1, t2, t3, t4, t5, t6];
    var marker := WithRevision(Marker(rec, marked), rec);
    WithDataToo(t.w, d, n, c4, WithMarker(d, marker), Sending(marker));
    WithHas(t.w, WithMarker(d, marker), n, Sending(marker));
    CallKeys(wanted, rec, checked, marker);
    AloneWith(t.w, d, n, Planning(wanted), rec.command.key);
    AloneWith(t.w, d, n, c1, rec.command.key);
    AloneWith(t.w, d, n, c2, rec.command.key);
    AloneWith(t.w, d, n, c3, rec.command.key);
    AloneWith(t.w, d, n, c4, rec.command.key);
    AloneWith(t.w, WithMarker(d, marker), n, Sending(marker), rec.command.key);
    SevenPath(fleet, run);
    MarkedEnd(run, n, id, checked, marked);
  }

  /** A call asks again for an outstanding record and is admitted with it. */
  lemma ReplayPath(fleet: Fleet, t: Timed, n: nat, id: Id, now: int) returns (wanted: Deployment, t2: Timed)
    requires Sound(t.w.d, fleet) && id in t.w.d.deployments && Outstanding(t.w.d.deployments[id].status)
    requires n !in t.w.calls && t.clock <= now
    requires var key := t.w.d.deployments[id].command.key;
      key in t.w.d.deploymentByKey && t.w.d.deploymentByKey[key] == id
    ensures t2 == Timed(With(t.w, t.w.d, n, Admitted(now, t.w.d.deployments[id], true)), now)
    ensures n in t2.w.calls && t2.w.calls[n] == Admitted(now, t.w.d.deployments[id], true) && t2.w.d == t.w.d
    ensures wanted.command.key == t.w.d.deployments[id].command.key
    ensures var t1 := Timed(With(t.w, t.w.d, n, Planning(wanted)), now);
      TimedFollows(fleet, t, t1) && TimedFollows(fleet, t1, t2)
  {
    hide *;
    var d, rec := t.w.d, t.w.d.deployments[id];
    wanted := RetryBegins(fleet, t, id, n, now);
    RequestTime(d, fleet, id, now, wanted);
    RequestFacts(d, fleet, id, now, wanted);
    var t1 := Timed(With(t.w, d, n, Planning(wanted)), now);
    WithHas(t.w, d, n, Planning(wanted));
    RetryAdmitted(fleet, t1, n, id);
    WithTwice(t.w, d, n, Planning(wanted), Admitted(now, rec, true));
    WithHas(t.w, d, n, Admitted(now, rec, true));
    t2 := Timed(With(t.w, d, n, Admitted(now, rec, true)), now);
  }

  lemma NotExpired(rec: Deployment, now: int)
    ensures Expired(rec.command, now) <==> rec.command.expiresAt <= now
  {
  }

  lemma ClearedInTime(fleet: Fleet, t: Timed, n: nat, rec: Deployment)
    requires n in t.w.calls && t.w.calls[n] == Clearing(rec) && !Expired(rec.command, t.clock)
    ensures TimedFollows(fleet, t, Timed(With(t.w, t.w.d, n, Acknowledging(rec)), t.clock))
  {
    CallStep(fleet, t, n, ClearContext(true, t.clock), t.w.d, Acknowledging(rec), t.clock);
  }

  lemma AcknowledgedInTime(fleet: Fleet, t: Timed, n: nat, rec: Deployment)
    requires n in t.w.calls && t.w.calls[n] == Acknowledging(rec) && !Expired(rec.command, t.clock)
    ensures TimedFollows(fleet, t, Timed(With(t.w, t.w.d, n, Dispatching(rec, t.clock, false)), t.clock))
  {
    CallStep(fleet, t, n, SetContext(true, t.clock), t.w.d, Dispatching(rec, t.clock, false), t.clock);
  }

  lemma CallKeys(wanted: Deployment, rec: Deployment, now: int, marker: Deployment)
    ensures KeyOf(Planning(wanted)) == Some(wanted.command.key)
    ensures KeyOf(Admitted(now, rec, true)) == Some(rec.command.key)
    ensures KeyOf(Clearing(rec)) == Some(rec.command.key) && KeyOf(Acknowledging(rec)) == Some(rec.command.key)
    ensures KeyOf(Dispatching(rec, now, false)) == Some(rec.command.key)
    ensures KeyOf(Dispatching(rec, now, true)) == Some(rec.command.key)
    ensures KeyOf(Sending(marker)) == Some(marker.command.key) && KeyOf(Awaiting(marker)) == Some(marker.command.key)
    ensures forall at :: WithRevision(Marker(rec, at), rec).command == rec.command
  {
  }

  lemma SevenPath(fleet: Fleet, run: seq<Timed>)
    requires |run| == 7 && TimedFollows(fleet, run[0], run[1]) && TimedFollows(fleet, run[1], run[2])
    requires TimedFollows(fleet, run[2], run[3]) && TimedFollows(fleet, run[3], run[4])
    requires TimedFollows(fleet, run[4], run[5]) && TimedFollows(fleet, run[5], run[6])
    requires forall k :: 0 <= k < 7 ==> Exclusive(run[k].w.calls)
    ensures IsPath(fleet, run) && NeverOverlapping(run)
  {
    hide TimedFollows, Exclusive;
  }

  lemma MarkedEnd(run: seq<Timed>, n: nat, id: Id, checked: int, marked: int)
    requires |run| == 7 && id in run[5].w.d.deployments && n in run[5].w.calls
    requires var rec := run[5].w.d.deployments[id];
      && rec.command.deployment == id && checked < rec.command.expiresAt
      && run[5].w.calls[n] == Dispatching(rec, checked, false)
      && run[6].clock == marked && run[6].w.d == WithMarker(run[5].w.d, WithRevision(Marker(rec, marked), rec))
    requires BeginsDispatch(run[5].w.d, run[6].w.d, id)
    ensures EndsMarked(run, n, id, marked)
  {
  }

  /* ---- asking again after a crash ---- */

  /** The death of call `n`, which frees its request. */
  lemma CrashStep(fleet: Fleet, t: Timed, n: nat)
    requires n in t.w.calls && !Over(t.w.calls[n]) && Exclusive(t.w.calls)
    ensures TimedFollows(fleet, t, Timed(With(t.w, t.w.d, n, Abandoned), t.clock))
    ensures Exclusive(With(t.w, t.w.d, n, Abandoned).calls)
    ensures KeyOf(t.w.calls[n]).Some? ==> Unclaimed(With(t.w, t.w.d, n, Abandoned).calls, KeyOf(t.w.calls[n]).value)
  {
    assert Advances(t.w.d, t.w.calls[n], t.w.sent, Die, t.w.d, Abandoned, t.w.sent);
    CallStep(fleet, t, n, Die, t.w.d, Abandoned, t.clock);
    assert forall a :: a in t.w.calls && a != n ==> !SameKey(t.w.calls[a], t.w.calls[n]);
    hide Advances, TimedFollows;
  }

  /** A call that works on the record's request died, and another asks again. */
  ghost predicate MayRetry(fleet: Fleet, t: Timed, n: nat, m: nat, id: Id) {
    && Inv(fleet, t.w) && Exclusive(t.w.calls) && n in t.w.calls && m !in t.w.calls
    && id in t.w.d.deployments && Outstanding(t.w.d.deployments[id].status)
    && var key := t.w.d.deployments[id].command.key;
       KeyOf(t.w.calls[n]) == Some(key) && key in t.w.d.deploymentByKey && t.w.d.deploymentByKey[key] == id
  }

  /** Before any dispatch and before the deadline, the request of a dead call can still be dispatched in time: the death
      and the retry are no overlap. */
  lemma RetryDispatchesInTime(fleet: Fleet, t: Timed, n: nat, m: nat, id: Id, now: int) returns (run: seq<Timed>)
    requires MayRetry(fleet, t, n, m, id) && Undispatched(t.w, id)
    requires t.clock <= now < t.w.d.deployments[id].command.expiresAt
    ensures |run| == 8 && run[0] == t && run[1] == Timed(With(t.w, t.w.d, n, Abandoned), t.clock)
    ensures IsPath(fleet, run) && NeverOverlapping(run) && EndsMarked(run, m, id, now)
  {
    hide *;
    RetryFacts(fleet, t, n, m, id);
    CrashStep(fleet, t, n);
    var crashed := Timed(With(t.w, t.w.d, n, Abandoned), t.clock);
    WithHas(t.w, t.w.d, n, Abandoned);
    CrashInv(fleet, t, n);
    StillUndispatched(t, crashed, id);
    var rest := LoneCallMarks(fleet, crashed, m, id, now, now);
    run := [t] + rest;
    AfterCrash(fleet, t, rest);
    LastTwo(run, rest, m, id, now);
  }

  lemma RetryFacts(fleet: Fleet, t: Timed, n: nat, m: nat, id: Id)
    requires MayRetry(fleet, t, n, m, id)
    ensures Inv(fleet, t.w) && Exclusive(t.w.calls) && n in t.w.calls && !Over(t.w.calls[n]) && m != n
    ensures m !in t.w.calls
    ensures id in t.w.d.deployments && Outstanding(t.w.d.deployments[id].status)
    ensures var key := t.w.d.deployments[id].command.key;
      KeyOf(t.w.calls[n]) == Some(key) && key in t.w.d.deploymentByKey && t.w.d.deploymentByKey[key] == id
  {
    hide Inv, Exclusive;
  }

  lemma CrashInv(fleet: Fleet, t: Timed, n: nat)
    requires Inv(fleet, t.w) && n in t.w.calls && TimedFollows(fleet, t, Timed(With(t.w, t.w.d, n, Abandoned), t.clock))
    ensures Inv(fleet, With(t.w, t.w.d, n, Abandoned))
  {
    hide *;
    TimedStepInv(fleet, t, Timed(With(t.w, t.w.d, n, Abandoned), t.clock));
  }

  lemma AfterCrash(fleet: Fleet, t: Timed, rest: seq<Timed>)
    requires |rest| > 0 && TimedFollows(fleet, t, rest[0]) && IsPath(fleet, rest) && NeverOverlapping(rest)
    requires Exclusive(t.w.calls)
    ensures IsPath(fleet, [t] + rest) && NeverOverlapping([t] + rest)
  {
    hide TimedFollows, Exclusive;
    var run := [t] + rest;
    forall k | 0 <= k < |run| - 1 ensures TimedFollows(fleet, run[k], run[k + 1]) {
      if k > 0 {
        assert TimedFollows(fleet, rest[k - 1], rest[k - 1 + 1]);
      }
    }
  }

  lemma LastTwo(run: seq<Timed>, rest: seq<Timed>, n: nat, id: Id, marked: int)
    requires |run| == |rest| + 1 && run[1..] == rest && EndsMarked(rest, n, id, marked)
    ensures EndsMarked(run, n, id, marked)
  {
    assert run[|run| - 1] == rest[|rest| - 1] && run[|run| - 2] == rest[|rest| - 2];
    hide BeginsDispatch, ChecksInTime;
  }

  /** The record of a dispatch that began, its outcome unknown. */
  predicate Unresolved(dep: Deployment) { dep.status.OutcomeUnknown? && dep.dispatchStarted }

  /** What a call that asks again does with the record it replays, on every clock and with both contexts acknowledged:
      a dispatch of unknown outcome is sent again until its reconciliation ends, without any context command once the
      call's first reading is past the deadline; a recorded expiry if the first reading is before the deadline;
      anything else only if every reading is. Otherwise the expiry is recorded. */
  lemma RetriedCall(now: int, snap: Deployment, clearedAt: int, acknowledgedAt: int)
    requires now <= clearedAt <= acknowledgedAt
    ensures var call, c := Phase(now, snap, true, clearedAt, acknowledgedAt), snap.command;
      && (call.Dispatching? <==>
            if Unresolved(snap) then now < c.expiresAt || now < c.reconcileUntil
            else if ExpiryRecorded(snap) then now < c.expiresAt
            else acknowledgedAt < c.expiresAt)
      && (call.Dispatching? || call.Expiring?)
      && (AfterGate(now, snap, true).Clearing? <==> now < c.expiresAt)
  {
  }

  /** Past the deadline and within reconciliation, the command of an unresolved dispatch is sent again, in the run with
      a crash and no overlap; its first dispatch stays the one it had. */
  lemma RetryRecovers(fleet: Fleet, t: Timed, n: nat, m: nat, id: Id, now: int) returns (run: seq<Timed>)
    requires MayRetry(fleet, t, n, m, id) && Unresolved(t.w.d.deployments[id])
    requires var c := t.w.d.deployments[id].command; t.clock <= now && c.expiresAt <= now < c.reconcileUntil
    ensures |run| == 7 && run[0] == t && run[1] == Timed(With(t.w, t.w.d, n, Abandoned), t.clock)
    ensures IsPath(fleet, run) && NeverOverlapping(run) && run[6].w.sent == t.w.sent + [id]
    ensures var rec := t.w.d.deployments[id];
      && m in run[4].w.calls && run[4].w.calls[m] == Dispatching(rec, now, true) && run[4].w.d == t.w.d
      && run[6].w.d == WithMarker(t.w.d, WithRevision(Marker(rec, now), rec))
  {
    hide *;
    RetryFacts(fleet, t, n, m, id);
    CrashStep(fleet, t, n);
    var s := With(t.w, t.w.d, n, Abandoned);
    var crashed := Timed(s, t.clock);
    WithHas(t.w, t.w.d, n, Abandoned);
    InvMeansSound(fleet, t.w);
    SoundKeys(t.w.d, fleet, id);
    var d, rec := t.w.d, t.w.d.deployments[id];
    var wanted, t2 := ReplayPath(fleet, crashed, m, id, now);
    var c1, c2 := Admitted(now, rec, true), Dispatching(rec, now, true);
    var t1, t3 := Timed(With(s, d, m, Planning(wanted)), now), Timed(With(s, d, m, c2), now);
    GateStep(fleet, t2, m, now, rec);
    RecoveryGate(rec, now);
    WithTwice(s, d, m, c1, c2);
    WithHas(s, d, m, c2);
    var marker := WithRevision(Marker(rec, now), rec);
    var t4 := MarkStep(fleet, t3, m, rec, now);
    WithDataToo(s, d, m, c2, WithMarker(d, marker), Sending(marker));
    WithHas(s, WithMarker(d, marker), m, Sending(marker));
    var t5 := SendStep(fleet, t4, m, marker);
    WithTwice(s, WithMarker(d, marker), m, Sending(marker), Awaiting(marker));
    run := [t, crashed, t1, t2, t3, t4, t5];
    CallKeys(wanted, rec, now, marker);
    AloneWith(s, d, m, Planning(wanted), rec.command.key);
    AloneWith(s, d, m, c1, rec.command.key);
    AloneWith(s, d, m, c2, rec.command.key);
    AloneWith(s, WithMarker(d, marker), m, Sending(marker), rec.command.key);
    AloneWith(s, WithMarker(d, marker), m, Awaiting(marker), rec.command.key);
    SevenPath(fleet, run);
  }

  lemma RecoveryGate(rec: Deployment, now: int)
    requires Unresolved(rec) && rec.command.expiresAt <= now < rec.command.reconcileUntil
    ensures AfterGate(now, rec, true) == Dispatching(rec, now, true)
  {
  }

  lemma SendStep(fleet: Fleet, t: Timed, n: nat, marker: Deployment) returns (after: Timed)
    requires n in t.w.calls && t.w.calls[n] == Sending(marker)
    ensures TimedFollows(fleet, t, after) && after.clock == t.clock && after.w.d == t.w.d
    ensures after.w.calls == With(t.w, t.w.d, n, Awaiting(marker)).calls
    ensures after.w.sent == t.w.sent + [marker.command.deployment]
  {
    var w' := With(t.w, t.w.d, n, Awaiting(marker)).(sent := t.w.sent + [marker.command.deployment]);
    after := Timed(w', t.clock);
    assert Advances(t.w.d, t.w.calls[n], t.w.sent, Send, t.w.d, Awaiting(marker), w'.sent);
    hide Advances;
    assert TimedNext(fleet, t, Advance(n, Send), after);
  }
}
