/** DeployCurrentMission as a program whose calls interleave: each call holds its own snapshot of the
    deployment, every store call is one atomic step, and the agent may fail or lose any answer. */
module DeploymentCalls {
  import opened Domain
  import opened StoreState
  import opened FleetFences

  const COMMAND_TTL := 120
  const RECONCILIATION_TTL := 900
  const NO_REPORT := Report(0, NO_ID, None, None)

  /** Where a call stands, with the record it read last. A call ends Returned without an error, or Abandoned: with an
      error of a check or the store, or because its process died. */
  datatype Call =
    | Planning(wanted: Deployment)
    | Admitted(now: int, snap: Deployment, replayed: bool)
    | Clearing(snap: Deployment)
    | Acknowledging(snap: Deployment)
    | ContextFailed(snap: Deployment)
    | Expiring(snap: Deployment, expiredAt: int)
    | Dispatching(snap: Deployment, checkedAt: int, readback: bool)
    | Sending(snap: Deployment)
    | Awaiting(snap: Deployment)
    | Reporting(snap: Deployment, desired: Deployment)
    | Rereading(desired: Deployment, expected: int)
    | Returned
    | Abandoned

  datatype ReplyStatus =
    | ReplyApplied | ReplyAlreadyApplied | ReplyRejected | ReplyTemporaryError | ReplyOutcomeUnknown
    | ReplyBindingMismatch | ReplyOnboardMismatch | ReplyUnsupported

  /** No answer, or an answer that names a command and a binding. */
  datatype Reply = NoReply | Reply(command: Id, sameBinding: bool, status: ReplyStatus, report: Report)

  /** A store write whose answer is not `heard` takes effect like any other, but ends the call with an error. */
  datatype Event =
    | Admit(heard: bool)
    | Gate(valid: bool)
    | ClearContext(acknowledged: bool, now: int)
    | SetContext(acknowledged: bool, now: int)
    | Persist(now: int, heard: bool)
    | Send
    | Receive(reply: Reply, items: nat, now: int)
    | Reread
    | Die

  /** The identities drawn afresh for one call. */
  datatype Fresh = Fresh(deployment: Id, command: Id, context: Id, clear: Id)

  function NewDeployment(m: Mission, f: Flight, a: Aircraft, ids: Fresh, key: Id, now: int): Deployment {
    Deployment(
      Command(ids.deployment, m.operator, f.id, f.aircraft, a.agent, f.intent, f.intentVersion, m.id, m.version,
        m.digest,
              ids.command, ids.context, ids.clear, key, DeployRequest(f.id, m.id, m.version, m.digest),
              now + COMMAND_TTL, now + COMMAND_TTL + RECONCILIATION_TTL),
      0, Pending, false, 0, NO_REPORT, now)
  }

  predicate Expired(c: Command, now: int) { c.expiresAt <= now }

  /** An admitted or replayed deployment goes on while its outcome is open; a refusal ends the call with an error. */
  function AfterAdmission(wanted: Deployment, r: DeploymentResult): Call {
    if r.DeploymentErr? || r.deployment.command.request != wanted.command.request then Abandoned
    else if !Outstanding(r.deployment.status) then Returned
    else Admitted(wanted.updatedAt, r.deployment, r.deployment.command.deployment != wanted.command.deployment)
  }

  /** The expiry decision: an expired command goes on only as a readback of a dispatch known to have begun. */
  function AfterGate(now: int, snap: Deployment, replayed: bool): Call {
    if Expired(snap.command, now) &&
       (!replayed || !snap.status.OutcomeUnknown? || !snap.dispatchStarted || snap.command.reconcileUntil <= now)
    then Expiring(snap, now)
    else if Expired(snap.command, now) then Dispatching(snap, now, true)
    else Clearing(snap)
  }

  function AfterClear(snap: Deployment, now: int): Call {
    if !Expired(snap.command, now) then Acknowledging(snap)
    else if snap.status.OutcomeUnknown? then Dispatching(snap, now, true)
    else Expiring(snap, now)
  }

  function AfterAcknowledge(snap: Deployment, now: int): Call {
    if Expired(snap.command, now) && !snap.status.OutcomeUnknown? then Expiring(snap, now)
    else Dispatching(snap, now, false)
  }

  /** A context step failed: a retryable error before any dispatch, an unknown outcome after one. */
  function ContextFailure(snap: Deployment, now: int): Deployment {
    snap.(attempts := snap.attempts + 1, updatedAt := now,
          status := if snap.dispatchStarted then OutcomeUnknown else TemporaryError)
  }

  function Expiry(snap: Deployment, now: int): Deployment {
    snap.(status := OutcomeUnknown, updatedAt := now)
  }

  /** The durable marker written before the command leaves. */
  function Marker(snap: Deployment, now: int): Deployment {
    snap.(attempts := snap.attempts + 1, dispatchStarted := true, updatedAt := now, status := OutcomeUnknown)
  }

  function StatusOf(status: ReplyStatus): Option<DeploymentStatus> {
    match status
    case ReplyApplied => Some(Applied)
    case ReplyAlreadyApplied => Some(AlreadyApplied)
    case ReplyRejected => Some(Refused)
    case ReplyTemporaryError => Some(TemporaryError)
    case ReplyOutcomeUnknown => Some(OutcomeUnknown)
    case ReplyBindingMismatch => Some(BindingMismatch)
    case ReplyOnboardMismatch => Some(OnboardMismatch)
    case ReplyUnsupported => None
  }

  /** The agent's report over the stored one: what the agent leaves out keeps its stored value. */
  function Updated(stored: Report, answer: Report): Report {
    answer.(ackType := if answer.ackType.None? then stored.ackType else answer.ackType,
            completedAt := if answer.completedAt.None? then stored.completedAt else answer.completedAt)
  }

  /** applyMissionDeploymentResult: success needs the deployment's own digest back, a fresh upload also the
      full item count; anything uncorrelated leaves the outcome unknown. */
  function AfterReply(snap: Deployment, reply: Reply, items: nat, now: int): Deployment {
    var updated := snap.(updatedAt := now);
    if reply.NoReply? || reply.command != snap.command.id || !reply.sameBinding || StatusOf(reply.status).None?
    then updated.(status := OutcomeUnknown)
    else
      var status := StatusOf(reply.status).value;
      var mismatch := || (status.Applied? &&
          (reply.report.onboardDigest != snap.command.digest || reply.report.uploaded != items))
                      || (status.AlreadyApplied? && reply.report.onboardDigest != snap.command.digest);
      updated.(status := if mismatch then OnboardMismatch else status, report := Updated(snap.report, reply.report))
  }

  /** The outcome of `desired` on top of the attempt evidence of `current`. */
  function Merged(current: Deployment, desired: Deployment): Deployment {
    current.(status := desired.status, report := desired.report,
             updatedAt := if desired.updatedAt > current.updatedAt then desired.updatedAt else current.updatedAt)
  }

  /** The loop of persistCorrelatedMissionDeploymentResult after a lost swap. */
  function AfterReread(current: Deployment, desired: Deployment): Call {
    if current.command != desired.command then Abandoned
    else if !Outstanding(current.status) || Outstanding(desired.status) then Returned
    else Reporting(current, Merged(current, desired))
  }

  function Ended(heard: bool): Call { if heard then Returned else Abandoned }

  /** The compare-and-swap of UpdateMissionDeployment with the revision of `base`. */
  ghost predicate Swaps(d: Data, after: Data, base: Deployment, written: Deployment, ok: bool) {
    after == UpdateDeployment(d, written, base.revision).0 && ok == UpdateDeployment(d, written, base.revision).1.Done?
  }

  function WithRevision(dep: Deployment, base: Deployment): Deployment {
    dep.(revision := base.revision + 1)
  }

  /** One step of one call. `sent` gains the deployment when its command reaches the agent. */
  ghost predicate Advances(d: Data, call: Call, sent: seq<Id>, e: Event, d': Data, call': Call, sent': seq<Id>) {
    match (call, e)
    case (Planning(wanted), Admit(heard)) =>
      var r := CreateDeployment(d, wanted);
      d' == r.0 && sent' == sent && call' == if heard then AfterAdmission(wanted, r.1) else Abandoned
    case (Admitted(now, snap, replayed), Gate(valid)) =>
      && d' == d && sent' == sent
      && var next := AfterGate(now, snap, replayed);
         call' == if next.Expiring? || valid then next else Abandoned
    case (Clearing(snap), ClearContext(acknowledged, now)) =>
      d' == d && sent' == sent && call' == if acknowledged then AfterClear(snap, now) else ContextFailed(snap)
    case (Acknowledging(snap), SetContext(acknowledged, now)) =>
      d' == d && sent' == sent && call' == if acknowledged then AfterAcknowledge(snap, now) else ContextFailed(snap)
    case (ContextFailed(snap), Persist(now, heard)) =>
      sent' == sent && call' == Ended(heard) && exists ok :: Swaps(d, d', snap, ContextFailure(snap, now), ok)
    case (Expiring(snap, expiredAt), Persist(_, heard)) =>
      sent' == sent && call' == Ended(heard) && exists ok :: Swaps(d, d', snap, Expiry(snap, expiredAt), ok)
    case (Dispatching(snap, _, _), Persist(now, heard)) =>
      && sent' == sent
      && exists ok :: Swaps(d, d', snap, Marker(snap, now), ok) &&
           call' == if heard && ok then Sending(WithRevision(Marker(snap, now), snap)) else Ended(heard)
    case (Sending(snap), Send) =>
      d' == d && call' == Awaiting(snap) && sent' == sent + [snap.command.deployment]
    case (Awaiting(snap), Receive(reply, items, now)) =>
      d' == d && sent' == sent && call' == Reporting(snap, AfterReply(snap, reply, items, now))
    case (Reporting(snap, desired), Persist(_, heard)) =>
      && sent' == sent
      && exists ok :: Swaps(d, d', snap, desired, ok) && call' == if heard && !ok then Rereading(desired, snap.revision)
         else Ended(heard)
    case (Rereading(desired, _), Reread) =>
      && d' == d && sent' == sent && desired.command.deployment in d.deployments
      && var current := d.deployments[desired.command.deployment];
         call' == AfterReread(current, desired)
    case (_, Die) => d' == d && sent' == sent && !call.Returned? && !call.Abandoned? && call' == Abandoned
    case _ => false
  }

  /* ---- how records move ---- */

  /** The same record, or a later state of one command whose outcome was still open. */
  predicate RecordEvolves(a: Deployment, b: Deployment) {
    || a == b
    || (&& Outstanding(a.status) && b.command == a.command && a.revision < b.revision && a.attempts <= b.attempts
        && (a.dispatchStarted ==> b.dispatchStarted))
  }

  lemma RecordEvolvesTransitive(a: Deployment, b: Deployment, c: Deployment)
    requires RecordEvolves(a, b) && RecordEvolves(b, c)
    ensures RecordEvolves(a, c)
  {
  }

  ghost predicate DeploymentsEvolve(d: Data, after: Data) {
    forall id :: id in d.deployments ==>
      id in after.deployments && RecordEvolves(d.deployments[id], after.deployments[id])
  }

  /** Missions are immutable; a flight changes only in status and start time. */
  ghost predicate BindingsKept(d: Data, after: Data) {
    && (forall m :: m in d.missions ==> m in after.missions && after.missions[m] == d.missions[m])
    && (forall f :: f in d.flights ==> f in after.flights && FlightEvolves(d.flights[f], after.flights[f]))
  }

  predicate FlightEvolves(a: Flight, b: Flight) {
    b == a || (a.status.Planned? && !b.status.Planned? && b == a.(status := b.status, startedAt := b.startedAt))
  }

  /** A snapshot still outstanding when it was read, of a record that has only moved on since. */
  ghost predicate Tracked(d: Data, snap: Deployment) {
    && snap.command.deployment in d.deployments
    && RecordEvolves(snap, d.deployments[snap.command.deployment])
    && Outstanding(snap.status)
  }

  ghost predicate CallOk(d: Data, fleet: Fleet, call: Call) {
    match call
    case Planning(wanted) => CommandBound(d, fleet, wanted.command) && wanted.status.Pending? && !wanted.dispatchStarted
    case Admitted(_, snap, _) => Tracked(d, snap)
    case Clearing(snap) => Tracked(d, snap)
    case Acknowledging(snap) => Tracked(d, snap)
    case ContextFailed(snap) => Tracked(d, snap)
    case Expiring(snap, _) => Tracked(d, snap)
    case Dispatching(snap, _, _) => Tracked(d, snap)
    case Sending(snap) => Tracked(d, snap) && snap.dispatchStarted && snap.status.OutcomeUnknown?
    case Awaiting(snap) => Tracked(d, snap) && snap.dispatchStarted && snap.status.OutcomeUnknown?
    case Reporting(snap, desired) => Tracked(d, snap) && snap.dispatchStarted && ReportsOn(snap, desired)
    case Rereading(desired, expected) => desired.dispatchStarted && RecordDispatched(d, desired.command, expected)
    case Returned => true
    case Abandoned => true
  }

  predicate ReportsOn(snap: Deployment, desired: Deployment) {
    desired.command == snap.command && desired.dispatchStarted && desired.attempts == snap.attempts
  }

  /** The record has been dispatched and has moved past the revision the call expected. */
  ghost predicate RecordDispatched(d: Data, c: Command, expected: int) {
    && c.deployment in d.deployments && d.deployments[c.deployment].command == c
    && d.deployments[c.deployment].dispatchStarted && expected < d.deployments[c.deployment].revision
  }

  lemma CallStaysOk(d: Data, after: Data, fleet: Fleet, call: Call)
    requires CallOk(d, fleet, call) && DeploymentsEvolve(d, after) && BindingsKept(d, after)
    ensures CallOk(after, fleet, call)
  {
    if call.Planning? {
      assert call.wanted.command.flight in d.flights;
    } else if !call.Rereading? && !call.Returned? && !call.Abandoned? {
      var id := call.snap.command.deployment;
      RecordEvolvesTransitive(call.snap, d.deployments[id], after.deployments[id]);
    }
  }

  /** Equal revisions mean equal records: a swap that succeeds replaced exactly the snapshot, while it was open. */
  lemma SwapReplacesSnapshot(d: Data, after: Data, base: Deployment, written: Deployment, ok: bool)
    requires Tracked(d, base) && written.command == base.command && Swaps(d, after, base, written, ok)
    ensures ok <==> d.deployments[base.command.deployment] == base
    ensures ok ==> after == d.(deployments := d.deployments[base.command.deployment := WithRevision(written, base)])
    ensures !ok ==> after == d
  {
  }
}
