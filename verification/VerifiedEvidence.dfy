/** A deployment counts as applied only on the agent's own evidence: a correlated answer that names the digest of
    the mission. So an active flight flies exactly the bytes that were authorized for it. */
module VerifiedEvidence {
  import opened Domain
  import opened StoreState
  import opened FleetFences
  import opened DeploymentCalls
  import opened Operations
  import opened DeploymentGuarantees
  import DispatchDeadline

  /** Exactly the answers that make a deployment verified. */
  lemma VerifiedExactly(snap: Deployment, reply: Reply, items: nat, now: int)
    ensures var after := AfterReply(snap, reply, items, now);
      && (after.status.Applied? <==>
            (reply.Reply? && reply.command == snap.command.id && reply.sameBinding && reply.status.ReplyApplied?
             && reply.report.onboardDigest == snap.command.digest && reply.report.uploaded == items))
      && (after.status.AlreadyApplied? <==>
            (reply.Reply? && reply.command == snap.command.id && reply.sameBinding && reply.status.ReplyAlreadyApplied?
             && reply.report.onboardDigest == snap.command.digest))
      && after.command == snap.command && after.attempts == snap.attempts
      && after.dispatchStarted == snap.dispatchStarted
  {
  }

  predicate Evidence(dep: Deployment) { Verified(dep.status) ==> dep.report.onboardDigest == dep.command.digest }

  ghost predicate EvidenceInv(w: World) {
    && (forall id :: id in w.d.deployments ==> Evidence(w.d.deployments[id]))
    && (forall n :: n in w.calls ==> CallEvidence(w.calls[n]))
  }

  predicate CallEvidence(call: Call) {
    match call
    case Planning(wanted) => wanted.status.Pending?
    case Reporting(_, desired) => Evidence(desired)
    case Rereading(desired, _) => Evidence(desired)
    case _ => true
  }

  /** The records a step leaves are old ones or carry evidence. */
  ghost predicate WritesEvidence(d: Data, d': Data) {
    forall id :: id in d'.deployments ==>
      (id in d.deployments && d'.deployments[id] == d.deployments[id]) || Evidence(d'.deployments[id])
  }

  lemma AdmissionEvidence(d: Data, wanted: Deployment)
    requires wanted.status.Pending?
    ensures WritesEvidence(d, CreateDeployment(d, wanted).0)
    ensures CallEvidence(AfterAdmission(wanted, CreateDeployment(d, wanted).1))
  {
    hide AdmissionBlocked, NoIntent;
  }

  lemma ProposalEvidence(d: Data, fleet: Fleet, call: Call, e: Event)
    requires CallOk(d, fleet, call) && CallEvidence(call) && Proposal(call, e).Some?
    ensures Evidence(Proposal(call, e).value.1)
    ensures Proposal(call, e).value.1.command == Proposal(call, e).value.0.command
  {
    hide Tracked;
  }

  lemma SwapEvidence(d: Data, d': Data, base: Deployment, written: Deployment, ok: bool)
    requires Tracked(d, base) && written.command == base.command && Evidence(written) && Swaps(d, d', base, written, ok)
    ensures WritesEvidence(d, d')
  {
    SwapReplacesSnapshot(d, d', base, written, ok);
    hide Swaps, Tracked;
    if ok {
      assert d'.deployments == d.deployments[base.command.deployment := WithRevision(written, base)];
    }
  }

  lemma NextEvidence(d: Data, fleet: Fleet, call: Call, sent: seq<Id>, e: Event, d': Data, call': Call, sent': seq<Id>)
    requires CallOk(d, fleet, call) && CallEvidence(call) && Advances(d, call, sent, e, d', call', sent')
    requires !call.Planning?
    ensures CallEvidence(call')
  {
    if call.Awaiting? && e.Receive? {
      VerifiedExactly(call.snap, e.reply, e.items, e.now);
    }
    hide Swaps, Tracked, CreateDeployment, AfterAdmission;
  }

  lemma AdvanceEvidence(d: Data, fleet: Fleet, call: Call, sent: seq<Id>, e: Event, d': Data, call': Call,
                        sent': seq<Id>)
    requires CallOk(d, fleet, call) && CallEvidence(call) && Advances(d, call, sent, e, d', call', sent')
    ensures WritesEvidence(d, d') && CallEvidence(call')
  {
    if call.Planning? {
      hide *;
      PlanningSteps(d, fleet, call, sent, e, d', call', sent');
      PlanningPending(call);
      AdmissionEvidence(d, call.wanted);
      Unwritten(d);
      OverEvidence(call');
    } else {
      hide *;
      NextEvidence(d, fleet, call, sent, e, d', call', sent');
      AdvanceKinds(d, fleet, call, sent, e, d', call', sent');
      if Proposal(call, e).Some? {
        ProposalEvidence(d, fleet, call, e);
        var base, written := Proposal(call, e).value.0, Proposal(call, e).value.1;
        var ok :| Swaps(d, d', base, written, ok);
        SwapEvidence(d, d', base, written, ok);
      } else {
        NotAdmitting(call, e);
        Unwritten(d);
      }
    }
  }

  lemma PlanningPending(call: Call)
    requires call.Planning? && CallEvidence(call)
    ensures call.wanted.status.Pending?
  {
  }

  lemma NotAdmitting(call: Call, e: Event)
    ensures !call.Planning? ==> !Admits(call, e)
  {
  }

  lemma OverEvidence(call: Call)
    ensures Over(call) ==> CallEvidence(call)
  {
  }

  lemma Unwritten(d: Data)
    ensures WritesEvidence(d, d)
  {
  }

  lemma StepEvidence(fleet: Fleet, w: World, step: Step, w': World)
    requires Inv(fleet, w) && EvidenceInv(w) && Next(fleet, w, step, w')
    ensures EvidenceInv(w')
  {
    hide *;
    if step.Advance? {
      DispatchDeadline.CallsShape(fleet, w, step, w');
      CallerThere(fleet, w, step, w');
      AdvanceOf(fleet, w, step.caller, step.event, w');
      EvidenceOf(w, step.caller);
      AdvanceEvidence(w.d, fleet, w.calls[step.caller], w.sent, step.event, w'.d, w'.calls[step.caller], w'.sent);
      AdvancedEvidence(w, step.caller, w');
    } else {
      DispatchDeadline.OtherStepsKeepDeployments(fleet, w, step, w');
      QuietEvidence(fleet, w, step, w');
    }
  }

  lemma CallerThere(fleet: Fleet, w: World, step: Step, w': World)
    requires step.Advance? && Next(fleet, w, step, w')
    ensures step.caller in w.calls && Next(fleet, w, Advance(step.caller, step.event), w')
  {
    hide Advances;
  }

  lemma EvidenceOf(w: World, n: nat)
    requires EvidenceInv(w) && n in w.calls
    ensures CallEvidence(w.calls[n])
  {
    hide Evidence, CallEvidence;
  }

  lemma AdvancedEvidence(w: World, n: nat, w': World)
    requires n in w'.calls && EvidenceInv(w) && WritesEvidence(w.d, w'.d) && CallEvidence(w'.calls[n])
    requires w'.calls == w.calls[n := w'.calls[n]]
    ensures EvidenceInv(w')
  {
    hide Evidence, CallEvidence;
  }

  lemma QuietEvidence(fleet: Fleet, w: World, step: Step, w': World)
    requires !step.Advance? && EvidenceInv(w) && Next(fleet, w, step, w') && w'.d.deployments == w.d.deployments
    requires !step.Begin? ==> w'.calls == w.calls
    ensures EvidenceInv(w')
  {
    if step.Begin? {
      hide Evidence, IntentCall, FleetCall, MayBegin;
    } else {
      hide Evidence, Next;
    }
  }

  lemma {:induction false} RunEvidence(fleet: Fleet, run: seq<World>, k: nat)
    requires IsRun(fleet, run) && k < |run|
    ensures EvidenceInv(run[k])
  {
    hide *;
    if k == 0 {
      StartEvidence(fleet, run);
    } else {
      RunEvidence(fleet, run, k - 1);
      RunKeepsInv(fleet, run, k - 1);
      FollowsAt(fleet, run, k - 1);
      FollowsEvidence(fleet, run[k - 1], run[k]);
    }
  }

  lemma FollowsEvidence(fleet: Fleet, w: World, w': World)
    requires Inv(fleet, w) && EvidenceInv(w) && Follows(fleet, w, w')
    ensures EvidenceInv(w')
  {
    hide Inv, Next, EvidenceInv;
    var step :| Next(fleet, w, step, w');
    StepEvidence(fleet, w, step, w');
  }

  lemma StartEvidence(fleet: Fleet, run: seq<World>)
    requires IsRun(fleet, run)
    ensures EvidenceInv(run[0])
  {
    hide Steps;
  }

  /** The newest deployment of the aircraft serves the flight, and the agent reported the current mission's digest. */
  ghost predicate Carries(d: Data, id: Id, f: Id)
    requires f in d.flights
  {
    && IsNewest(d, id, d.flights[f].aircraft) && ServesFlight(d, id, f)
    && IsCurrentMission(d, d.deployments[id].command.mission)
    && d.deployments[id].report.onboardDigest == d.missions[d.deployments[id].command.mission].digest
  }

  /** The aircraft of an active flight was last reported to carry exactly the flight's current mission. */
  lemma ActiveFlightCarriesMission(fleet: Fleet, run: seq<World>, k: nat, f: Id)
    requires IsRun(fleet, run) && k < |run| && f in run[k].d.flights && run[k].d.flights[f].status.Flying?
    ensures exists id :: Carries(run[k].d, id, f)
  {
    ActiveFlightServed(fleet, run, k, f);
    RunEvidence(fleet, run, k);
    hide IsRun, OneFliesServed, TwoFly;
    var d := run[k].d;
    var id :| IsNewest(d, id, d.flights[f].aircraft) && ServesFlight(d, id, f);
    assert Evidence(d.deployments[id]);
    assert Carries(d, id, f);
  }
}
