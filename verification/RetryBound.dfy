/** How often persistCorrelatedMissionDeploymentResult can go round: no more often than others write the record. */
module RetryBound {
  import opened Domain
  import opened StoreState
  import opened FleetFences
  import opened DeploymentCalls
  import opened Operations
  import opened DeploymentGuarantees
  import DispatchDeadline

  /** From the durable marker to the end of the call. */
  predicate Reports(call: Call) { call.Sending? || call.Awaiting? || call.Reporting? || call.Rereading? }

  /** The revision the call last saw. */
  function Level(call: Call): int
    requires Reports(call)
  {
    if call.Rereading? then call.expected else call.snap.revision
  }

  function RecordOf(call: Call): Id
    requires Reports(call)
  {
    if call.Rereading? then call.desired.command.deployment else call.snap.command.deployment
  }

  ghost predicate IsRetry(w: World, w': World, n: nat) {
    n in w.calls && n in w'.calls && w.calls[n].Rereading? && w'.calls[n].Reporting?
  }

  /** The record changed while call `n` did not move: somebody else wrote it. */
  ghost predicate ForeignWrite(w: World, w': World, n: nat, id: Id) {
    && n in w.calls && n in w'.calls && w'.calls[n] == w.calls[n]
    && id in w.d.deployments && id in w'.d.deployments && w'.d.deployments[id] != w.d.deployments[id]
  }

  ghost function Retries(run: seq<World>, n: nat, i: nat, j: nat): nat
    requires i <= j < |run|
  {
    if i == j then 0 else Retries(run, n, i, j - 1) + if IsRetry(run[j - 1], run[j], n) then 1 else 0
  }

  ghost function ForeignWrites(run: seq<World>, n: nat, id: Id, i: nat, j: nat): nat
    requires i <= j < |run|
  {
    if i == j then 0 else ForeignWrites(run, n, id, i, j - 1) + if ForeignWrite(run[j - 1], run[j], n, id) then 1 else 0
  }

  /** Every change of a stored deployment raises its revision by one. */
  lemma WritesRaiseByOne(fleet: Fleet, w: World, step: Step, w': World, id: Id)
    requires Inv(fleet, w) && Next(fleet, w, step, w') && id in w.d.deployments && id in w'.d.deployments
    ensures w'.d.deployments[id] == w.d.deployments[id] ||
      w'.d.deployments[id].revision == w.d.deployments[id].revision + 1
  {
    hide *;
    if step.Advance? {
      DispatchDeadline.CallsShape(fleet, w, step, w');
      CallerOf(fleet, w, step, w');
      AdvanceOf(fleet, w, step.caller, step.event, w');
      CallRaisesByOne(w.d, fleet, w.calls[step.caller], w.sent, step.event, w'.d, w'.calls[step.caller], w'.sent, id);
    } else {
      DispatchDeadline.OtherStepsKeepDeployments(fleet, w, step, w');
    }
  }

  lemma CallerOf(fleet: Fleet, w: World, step: Step, w': World)
    requires step.Advance? && Next(fleet, w, step, w')
    ensures step.caller in w.calls && Next(fleet, w, Advance(step.caller, step.event), w')
  {
    hide Advances;
  }

  lemma CallRaisesByOne(d: Data, fleet: Fleet, call: Call, sent: seq<Id>, e: Event, d': Data, call': Call,
                        sent': seq<Id>, id: Id)
    requires CallOk(d, fleet, call) && Advances(d, call, sent, e, d', call', sent') && id in d.deployments
    requires id in d'.deployments
    ensures d'.deployments[id] == d.deployments[id] || d'.deployments[id].revision == d.deployments[id].revision + 1
  {
    AdvanceKinds(d, fleet, call, sent, e, d', call', sent');
    hide Advances, CallOk;
    if Admits(call, e) {
      AdmissionKeepsRecord(d, call.wanted, id);
    } else if Proposal(call, e).Some? {
      hide Swaps, Tracked;
      var base, written := Proposal(call, e).value.0, Proposal(call, e).value.1;
      var ok :| Swaps(d, d', base, written, ok);
      SwapReplacesSnapshot(d, d', base, written, ok);
    }
  }

  lemma AdmissionKeepsRecord(d: Data, wanted: Deployment, id: Id)
    requires id in d.deployments
    ensures id in CreateDeployment(d, wanted).0.deployments
    ensures CreateDeployment(d, wanted).0.deployments[id] == d.deployments[id]
  {
    hide AdmissionBlocked, NoIntent;
  }

  /** One own step inside the loop: the record stays, and a retry sees a strictly later revision. */
  lemma OwnStep(d: Data, fleet: Fleet, call: Call, sent: seq<Id>, e: Event, d': Data, call': Call, sent': seq<Id>)
    requires Reports(call) && CallOk(d, fleet, call) && Advances(d, call, sent, e, d', call', sent')
    ensures Reports(call') || Over(call')
    ensures Reports(call') ==> d' == d && RecordOf(call') == RecordOf(call) && call' != call
    ensures Reports(call') ==> Level(call') >= Level(call) + if call.Rereading? && call'.Reporting? then 1 else 0
  {
    hide CreateDeployment, Outstanding;
    if call.Reporting? && call'.Rereading? {
      assert Swaps(d, d', call.snap, call.desired, false);
      SwapReplacesSnapshot(d, d', call.snap, call.desired, false);
    }
  }

  lemma LevelBelowStored(d: Data, fleet: Fleet, call: Call)
    requires Reports(call) && CallOk(d, fleet, call)
    ensures RecordOf(call) in d.deployments && Level(call) <= d.deployments[RecordOf(call)].revision
  {
  }

  /** What one step of the system does to call `n`, if that is past its marker. */
  ghost predicate LoopStep(w: World, w': World, n: nat) {
    && n in w.calls && n in w'.calls
    && (Over(w.calls[n]) ==> Over(w'.calls[n]))
    && (Reports(w.calls[n]) ==>
          && (Reports(w'.calls[n]) || Over(w'.calls[n]))
          && (Reports(w'.calls[n]) ==> StaysReporting(w, w', n)))
  }

  ghost predicate StaysReporting(w: World, w': World, n: nat)
    requires n in w.calls && n in w'.calls && Reports(w.calls[n]) && Reports(w'.calls[n])
  {
    var id := RecordOf(w.calls[n]);
    && RecordOf(w'.calls[n]) == id && id in w.d.deployments && id in w'.d.deployments
    && Level(w'.calls[n]) >= Level(w.calls[n]) + (if IsRetry(w, w', n) then 1 else 0)
    && w'.d.deployments[id].revision == w.d.deployments[id].revision + (if ForeignWrite(w, w', n, id) then 1 else 0)
  }

  lemma StepInLoop(fleet: Fleet, w: World, step: Step, w': World, n: nat)
    requires Inv(fleet, w) && Next(fleet, w, step, w') && n in w.calls
    ensures LoopStep(w, w', n)
  {
    if step.Advance? && step.caller == n {
      hide *;
      DispatchDeadline.CallsShape(fleet, w, step, w');
      CallerOf(fleet, w, step, w');
      AdvanceOf(fleet, w, n, step.event, w');
      OwnLoopStep(fleet, w, n, step.event, w');
    } else {
      assert n in w'.calls && w'.calls[n] == w.calls[n]
          by { hide Advances, IntentCall, FleetCall, MayBegin, NewDeployment, Inv; }
      hide *;
      OtherLoopStep(fleet, w, step, w', n);
    }
  }

  lemma OwnLoopStep(fleet: Fleet, w: World, n: nat, e: Event, w': World)
    requires n in w.calls && n in w'.calls && CallOk(w.d, fleet, w.calls[n])
    requires Advances(w.d, w.calls[n], w.sent, e, w'.d, w'.calls[n], w'.sent)
    ensures LoopStep(w, w', n)
  {
    if Over(w.calls[n]) {
      OverStays(w.d, w.calls[n], w.sent, e, w'.d, w'.calls[n], w'.sent);
    } else if Reports(w.calls[n]) {
      OwnStep(w.d, fleet, w.calls[n], w.sent, e, w'.d, w'.calls[n], w'.sent);
      LevelBelowStored(w.d, fleet, w.calls[n]);
      hide Advances, CallOk, RecordOf, Level;
    }
  }

  /** A call that has ended takes no step. */
  lemma OverStays(d: Data, call: Call, sent: seq<Id>, e: Event, d': Data, call': Call, sent': seq<Id>)
    requires Advances(d, call, sent, e, d', call', sent')
    ensures !Over(call)
  {
    hide Swaps, CreateDeployment;
  }

  lemma OtherLoopStep(fleet: Fleet, w: World, step: Step, w': World, n: nat)
    requires Inv(fleet, w) && Next(fleet, w, step, w') && n in w.calls && n in w'.calls && w'.calls[n] == w.calls[n]
    ensures LoopStep(w, w', n)
  {
    hide *;
    if Reports(w.calls[n]) {
      NextKeepsInv(fleet, w, step, w');
      DispatchDeadline.InvCall(fleet, w, n);
      DispatchDeadline.InvCall(fleet, w', n);
      LevelBelowStored(w.d, fleet, w.calls[n]);
      LevelBelowStored(w'.d, fleet, w'.calls[n]);
      WritesRaiseByOne(fleet, w, step, w', RecordOf(w.calls[n]));
    }
    StandingStill(w, w', n);
  }

  lemma StandingStill(w: World, w': World, n: nat)
    requires n in w.calls && n in w'.calls && w'.calls[n] == w.calls[n]
    requires Reports(w.calls[n]) ==>
      var id := RecordOf(w.calls[n]);
      && id in w.d.deployments && id in w'.d.deployments
      && (w'.d.deployments[id] == w.d.deployments[id] ||
         w'.d.deployments[id].revision == w.d.deployments[id].revision + 1)
    ensures LoopStep(w, w', n)
  {
    hide RecordOf, Level;
  }

  lemma RunLoopStep(fleet: Fleet, run: seq<World>, k: nat, n: nat)
    requires IsRun(fleet, run) && k + 1 < |run| && n in run[k].calls
    ensures LoopStep(run[k], run[k + 1], n)
  {
    hide *;
    RunKeepsInv(fleet, run, k);
    FollowsAt(fleet, run, k);
    FollowsInLoop(fleet, run[k], run[k + 1], n);
  }

  lemma FollowsInLoop(fleet: Fleet, w: World, w': World, n: nat)
    requires Inv(fleet, w) && Follows(fleet, w, w') && n in w.calls
    ensures LoopStep(w, w', n)
  {
    hide Inv, Next, LoopStep;
    var step :| Next(fleet, w, step, w');
    StepInLoop(fleet, w, step, w', n);
  }

  /** Between two moments of the loop, retries raise the level and foreign writes the stored revision, one by one. */
  lemma {:induction false} LoopAccount(fleet: Fleet, run: seq<World>, n: nat, i: nat, j: nat)
    requires IsRun(fleet, run) && i <= j < |run| && n in run[i].calls
    requires (Reports(run[i].calls[n]) || Over(run[i].calls[n]))
    ensures n in run[j].calls && (Reports(run[j].calls[n]) || Over(run[j].calls[n]))
    ensures Over(run[i].calls[n]) ==> Over(run[j].calls[n])
    ensures Reports(run[j].calls[n]) ==> Reports(run[i].calls[n]) && Account(run, n, i, j)
  {
    hide *;
    if i < j {
      LoopAccount(fleet, run, n, i, j - 1);
      RunLoopStep(fleet, run, j - 1, n);
      AccountStep(run, n, i, j);
    } else {
      RunKeepsInv(fleet, run, i);
      if Reports(run[i].calls[n]) {
        DispatchDeadline.InvCall(fleet, run[i], n);
        LevelBelowStored(run[i].d, fleet, run[i].calls[n]);
        AccountOpens(run, n, i);
      }
    }
  }

  lemma AccountOpens(run: seq<World>, n: nat, i: nat)
    requires i < |run| && n in run[i].calls && Reports(run[i].calls[n])
    requires RecordOf(run[i].calls[n]) in run[i].d.deployments
    ensures Account(run, n, i, i)
  {
    hide RecordOf, Level, Reports;
  }

  lemma AccountStep(run: seq<World>, n: nat, i: nat, j: nat)
    requires i < j < |run| && n in run[i].calls && n in run[j - 1].calls && LoopStep(run[j - 1], run[j], n)
    requires Reports(run[j - 1].calls[n]) || Over(run[j - 1].calls[n])
    requires Over(run[i].calls[n]) ==> Over(run[j - 1].calls[n])
    requires Reports(run[j - 1].calls[n]) ==> Reports(run[i].calls[n]) && Account(run, n, i, j - 1)
    ensures n in run[j].calls && (Reports(run[j].calls[n]) || Over(run[j].calls[n]))
    ensures Over(run[i].calls[n]) ==> Over(run[j].calls[n])
    ensures Reports(run[j].calls[n]) ==> Reports(run[i].calls[n]) && Account(run, n, i, j)
  {
    OverOrReports(run[j - 1].calls[n]);
    OverOrReports(run[j].calls[n]);
    hide RecordOf, Level, Reports, Over, IsRetry, ForeignWrite;
  }

  lemma OverOrReports(call: Call)
    ensures !(Over(call) && Reports(call))
  {
  }

  ghost predicate Account(run: seq<World>, n: nat, i: nat, j: nat)
    requires i <= j < |run| && n in run[i].calls && n in run[j].calls && Reports(run[i].calls[n])
    requires Reports(run[j].calls[n])
  {
    var id := RecordOf(run[i].calls[n]);
    && RecordOf(run[j].calls[n]) == id && id in run[i].d.deployments && id in run[j].d.deployments
    && Level(run[j].calls[n]) >= Level(run[i].calls[n]) + Retries(run, n, i, j)
    && run[j].d.deployments[id].revision == run[i].d.deployments[id].revision + ForeignWrites(run, n, id, i, j)
  }

  /** Counted from the moment the call's dispatch marker is the stored record, a call that is still reporting has
      gone round at most as often as others have written the record. So with finite interference it ends. */
  lemma RetriesBounded(fleet: Fleet, run: seq<World>, n: nat, i: nat, j: nat)
    requires IsRun(fleet, run) && i <= j < |run| && n in run[i].calls && run[i].calls[n].Sending? && n in run[j].calls
    requires Reports(run[j].calls[n])
    requires var snap := run[i].calls[n].snap;
      snap.command.deployment in run[i].d.deployments && run[i].d.deployments[snap.command.deployment] == snap
    ensures Retries(run, n, i, j) <= ForeignWrites(run, n, run[i].calls[n].snap.command.deployment, i, j)
  {
    LoopAccount(fleet, run, n, i, j);
    RunKeepsInv(fleet, run, j);
    DispatchDeadline.InvCall(fleet, run[j], n);
    LevelBelowStored(run[j].d, fleet, run[j].calls[n]);
    hide IsRun, Inv, CallOk;
  }
}
