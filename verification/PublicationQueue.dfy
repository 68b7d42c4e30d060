/** When a closing publication queues something new for each of its subscribers: always, as long as a requested
    withdrawal is never taken back; not, if the reference is withdrawn and created again. */
module PublicationQueue {
  import opened Domain
  import opened StoreState
  import opened PublicationProtocol

  /* ---- a withdrawal that is final ---- */

  predicate IsWithdrawn(pub: Option<Publication>) { pub.Some? && pub.value.desiredState.WithdrawnState? }

  /** After a withdrawal was requested, no other state is. */
  predicate KeepsWithdrawal(s: State, step: Step) {
    step.Request? && !step.desired.WithdrawnState? ==> !IsWithdrawn(s.pub)
  }

  /** Every change notification of this intent in the queue names a reference version up to `version`. */
  ghost predicate ChangesUpTo(intent: Id, outbox: map<NotificationId, Notification>, version: int) {
    forall id :: id in outbox && id.Change? && id.intent == intent ==> id.dssVersion <= version
  }

  ghost predicate NoChanges(intent: Id, outbox: map<NotificationId, Notification>) {
    forall id :: id in outbox && id.Change? ==> id.intent != intent
  }

  /** The queue lags behind the reference: what a put has produced and not yet confirmed is not in it. */
  ghost predicate QueueBehind(intent: Id, s: State) {
    && (s.dss.Held? ==> ChangesUpTo(intent, s.outbox, s.dss.version))
    && (s.dss.Absent? && !IsWithdrawn(s.pub) ==> NoChanges(intent, s.outbox))
    && (s.last in s.workers && !s.workers[s.last].p.desiredState.WithdrawnState? && s.dss.Absent? ==>
       NoChanges(intent, s.outbox))
    && (forall n :: n in s.workers ==> WorkerBehind(intent, s, s.workers[n]))
  }

  ghost predicate WorkerBehind(intent: Id, s: State, w: Worker) {
    && (w.p.desiredState.WithdrawnState? ==> IsWithdrawn(s.pub))
    && (Owns(s, w) && PutReceipt(w).Some? ==> ChangesUpTo(intent, s.outbox, PutReceipt(w).value.version - 1))
  }

  /** The receipt of a performed put that is not yet confirmed. */
  function PutReceipt(w: Worker): Option<Receipt> {
    match w.phase
    case Putting(Some(Performed(r))) => Some(r)
    case Confirming(r, _) => Some(r)
    case _ => None
  }

  lemma InitialBehind(intent: Id)
    ensures QueueBehind(intent, INITIAL)
  {
  }

  /** A worker moves on and its unconfirmed put, if any, is the one it had. */
  lemma LocalBehind(intent: Id, s: State, n: nat, w': Worker)
    requires QueueBehind(intent, s) && n in s.workers && w'.p.desiredState == s.workers[n].p.desiredState
    requires w'.p.revision == s.workers[n].p.revision
    requires (PutReceipt(w').None? || PutReceipt(w') == PutReceipt(s.workers[n]))
    ensures QueueBehind(intent, s.(workers := s.workers[n := w']))
  {
    var s' := s.(workers := s.workers[n := w']);
    forall m | m in s'.workers ensures WorkerBehind(intent, s', s'.workers[m]) {
      assert WorkerBehind(intent, s, s.workers[m]);
    }
    hide ChangesUpTo, NoChanges;
  }

  /** Every worker step but the performed mutation, the renewal and the closing write. */
  lemma QuietWorkBehind(intent: Id, s: State, n: nat, e: WorkerEvent, s': State)
    requires Inv(intent, s) && QueueBehind(intent, s) && n in s.workers && Works(s, n, e, s') && !e.Renew? && !e.Write?
    requires !(e.Process? && Performs(s, s.workers[n]))
    ensures QueueBehind(intent, s')
  {
    hide Inv, QueueBehind, Performs, PeerNotifications;
    LocalBehind(intent, s, n, s'.workers[n]);
  }

  lemma PerformedBehind(intent: Id, s: State, n: nat, e: WorkerEvent, s': State)
    requires Inv(intent, s) && QueueBehind(intent, s) && n in s.workers && Works(s, n, e, s') && e.Process?
    requires Performs(s, s.workers[n])
    ensures QueueBehind(intent, s')
  {
    var w := s.workers[n];
    assert FenceOk(s, n) && n == s.last && CopyOk(intent, s.accepted, w) && WorkerBehind(intent, s, w);
    hide Inv, FenceOk, CopyOk;
    forall m | m in s'.workers ensures WorkerBehind(intent, s', s'.workers[m]) {
      assert WorkerBehind(intent, s, s.workers[m]);
    }
  }

  lemma RenewedBehind(intent: Id, s: State, n: nat, e: WorkerEvent, s': State)
    requires QueueBehind(intent, s) && n in s.workers && Works(s, n, e, s') && e.Renew?
    ensures QueueBehind(intent, s')
  {
    forall m | m in s'.workers ensures WorkerBehind(intent, s', s'.workers[m]) {
      assert WorkerBehind(intent, s, s.workers[m]);
    }
    hide ChangesUpTo, NoChanges;
  }

  /** A closing put adds notifications of its own reference version only. */
  lemma ClosedBehind(intent: Id, s: State, n: nat, e: WorkerEvent, s': State)
    requires Inv(intent, s) && QueueBehind(intent, s) && n in s.workers && Works(s, n, e, s') && e.Write?
    ensures QueueBehind(intent, s')
  {
    var w := s.workers[n];
    assert FenceOk(s, n) && CopyOk(intent, s.accepted, w) && OutcomeOk(s, w);
    if Owns(s, w) {
      EnqueueContains(s.outbox, Queued(w));
      AddedVersions(intent, s, w, s'.outbox);
      assert forall m :: m in s.workers ==> FenceOk(s, m);
      hide Inv, Enqueue, CopyOk;
      forall m | m in s'.workers ensures WorkerBehind(intent, s', s'.workers[m]) {
        assert WorkerBehind(intent, s, s.workers[m]);
        assert FenceOk(s, m);
      }
    } else {
      hide Inv;
      LocalBehind(intent, s, n, Move(w, Finished));
    }
  }

  lemma AddedVersions(intent: Id, s: State, w: Worker, outbox: map<NotificationId, Notification>)
    requires CopyOk(intent, s.accepted, w) && OutcomeOk(s, w) && Owns(s, w)
    requires forall id :: id in outbox && id !in s.outbox ==> exists k :: 0 <= k < |Queued(w)| && Queued(w)[k].id == id
    ensures w.phase.Confirming? ==>
      s.dss.Held? && (ChangesUpTo(intent, s.outbox, s.dss.version) ==> ChangesUpTo(intent, outbox, s.dss.version))
    ensures !w.phase.Confirming? ==> forall id :: id in outbox && id !in s.outbox ==> id.Deletion?
  {
    forall id | id in outbox && id !in s.outbox
      ensures w.phase.Confirming? ==> id.Change? && id.dssVersion == s.dss.version
      ensures !w.phase.Confirming? ==> id.Deletion?
    {
      var k :| 0 <= k < |Queued(w)| && Queued(w)[k].id == id;
    }
  }

  lemma RequestBehind(intent: Id, s: State, step: Step, s': State)
    requires Inv(intent, s) && QueueBehind(intent, s) && step.Request? && Next(intent, s, step, s')
    requires KeepsWithdrawal(s, step)
    ensures QueueBehind(intent, s')
  {
    forall m | m in s'.workers ensures WorkerBehind(intent, s', s'.workers[m]) {
      assert WorkerBehind(intent, s, s.workers[m]) && FenceOk(s, m);
    }
    hide ChangesUpTo, NoChanges, Inv;
  }

  lemma ClaimBehind(intent: Id, s: State, step: Step, s': State)
    requires Inv(intent, s) && QueueBehind(intent, s) && step.Claim? && Next(intent, s, step, s')
    ensures QueueBehind(intent, s')
  {
    forall m | m in s'.workers ensures WorkerBehind(intent, s', s'.workers[m]) {
      if m != step.worker {
        assert WorkerBehind(intent, s, s.workers[m]) && FenceOk(s, m);
      }
    }
    hide ChangesUpTo, NoChanges, Inv;
  }

  lemma OutboxBehind(intent: Id, s: State, outbox: map<NotificationId, Notification>)
    requires QueueBehind(intent, s) && SameQueued(intent, s.outbox, outbox)
    ensures QueueBehind(intent, s.(outbox := outbox))
  {
    var s' := s.(outbox := outbox);
    forall m | m in s'.workers ensures WorkerBehind(intent, s', s'.workers[m]) {
      assert WorkerBehind(intent, s, s.workers[m]);
    }
  }

  lemma WorkBehind(intent: Id, s: State, n: nat, e: WorkerEvent, s': State)
    requires Inv(intent, s) && QueueBehind(intent, s) && n in s.workers && Works(s, n, e, s')
    ensures QueueBehind(intent, s')
  {
    hide *;
    if e.Renew? {
      RenewedBehind(intent, s, n, e, s');
    } else if e.Write? {
      ClosedBehind(intent, s, n, e, s');
    } else if e.Process? && Performs(s, s.workers[n]) {
      PerformedBehind(intent, s, n, e, s');
    } else {
      QuietWorkBehind(intent, s, n, e, s');
    }
  }

  lemma NextBehind(intent: Id, s: State, step: Step, s': State)
    requires Inv(intent, s) && QueueBehind(intent, s) && Next(intent, s, step, s') && KeepsWithdrawal(s, step)
    ensures QueueBehind(intent, s')
  {
    match step
    case Request(_, _) => hide *; RequestBehind(intent, s, step, s');
    case Claim(_, _) => hide *; ClaimBehind(intent, s, step, s');
    case Work(n, e) => hide Inv, QueueBehind, Works; WorkBehind(intent, s, n, e, s');
    case OutboxMoves(outbox) => hide Inv, QueueBehind; OutboxBehind(intent, s, outbox);
    case _ =>
      forall m | m in s'.workers ensures WorkerBehind(intent, s', s'.workers[m]) {
        assert WorkerBehind(intent, s, s.workers[m]);
      }
  }

  /** With final withdrawals, entering Confirmed queues a fresh record for every subscriber of the receipt. */
  lemma ConfirmingQueuesAll(intent: Id, s: State, step: Step, s': State)
    requires Inv(intent, s) && QueueBehind(intent, s) && Next(intent, s, step, s')
    requires !Closed(s.pub) && Closed(s'.pub) && s'.pub.value.syncStatus.Confirmed?
    ensures step.Work? && step.worker in s.workers && Closes(s.workers[step.worker], s'.pub.value)
    ensures var w := s.workers[step.worker];
      forall k :: 0 <= k < |w.phase.used.subscribers| ==>
        var id := ClosingIdentity(w, s'.pub.value, k);
        id !in s.outbox && id in s'.outbox && FreshFor(w, k, s'.outbox[id])
  {
    ClosingNotifies(intent, s, step, s');
    ClosedByWrite(intent, s, step, s');
    var w := s.workers[step.worker];
    assert CopyOk(intent, s.accepted, w) && WorkerBehind(intent, s, w);
    assert s'.pub.value.intent == intent;
    hide Inv, Next, FreshFor;
  }

  /** Deletion notifications enter the queue only when a withdrawal is closed. */
  lemma DeletionsByWithdrawal(intent: Id, s: State, n: nat, e: WorkerEvent, s': State, id: NotificationId)
    requires Inv(intent, s) && n in s.workers && Works(s, n, e, s')
    requires id in s'.outbox && id !in s.outbox && id.Deletion?
    ensures id.intent == intent && s'.pub.Some? && s'.pub.value.syncStatus.Withdrawn?
  {
    var w := s.workers[n];
    assert CopyOk(intent, s.accepted, w);
    if e.Write? {
      EnqueueContains(s.outbox, Queued(w));
      hide Inv, Enqueue;
    } else {
      hide Inv, CopyOk, Decided, ReadBack, ReturnedDelete, ReturnedPut, Recovered, Mutated, PerformedReceipt, Performs,
          Answered, MayDecide, Enqueue;
    }
  }

  /* ---- a withdrawal taken back ---- */

  ghost predicate IsPath(intent: Id, path: seq<State>) {
    |path| > 0 && forall k :: 0 <= k < |path| - 1 ==> Follows(intent, path[k], path[k + 1])
  }

  lemma PathsJoin(intent: Id, left: seq<State>, right: seq<State>)
    requires IsPath(intent, left) && IsPath(intent, right) && left[|left| - 1] == right[0]
    ensures IsPath(intent, left + right[1..])
  {
    hide Follows;
    var path := left + right[1..];
    forall k | 0 <= k < |path| - 1 ensures Follows(intent, path[k], path[k + 1]) {
      if k < |left| - 1 {
        assert Follows(intent, left[k], left[k + 1]);
      } else {
        assert Follows(intent, right[k - |left| + 1], right[k - |left| + 1 + 1]);
      }
    }
  }

  /** A publication waiting for any worker. */
  ghost predicate Waiting(s: State, n: nat) {
    s.pub.Some? && n !in s.workers && LeaseFree(s.pub.value.leaseUntil, s.clock)
  }

  /** The notification of the first put of a reference, for one subscriber. */
  function FirstPut(p: Publication, ovn: nat, url: Id, now: int): Notification {
    PeerNotification(p, Receipt(1, ovn, NO_ID, [url]), false, url, NO_ID, now)
  }

  /** Worker `n` creates the reference, is told of one subscriber, and confirms. */
  lemma CreationPath(intent: Id, s: State, n: nat, ovn: nat, url: Id) returns (path: seq<State>)
    requires Waiting(s, n) && s.pub.value.intent == intent && s.pub.value.ovn == NO_OVN
    requires !s.pub.value.desiredState.WithdrawnState?
    requires s.dss.Absent? && ovn != NO_OVN
    ensures IsPath(intent, path) && path[0] == s && |path| == 7
    ensures var before, after, p := path[5], path[6], s.pub.value;
      && !Closed(before.pub) && before.outbox == s.outbox && n in before.workers && before.workers[n].phase.Confirming?
      && before.workers[n].phase.used.subscribers == [url]
      && after.pub.Some? && after.pub.value.syncStatus.Confirmed? && after.pub.value.intent == intent
      && after.pub.value.ovn == ovn
      && after.pub.value.leaseUntil.None? && after.dss == Held(ovn, 1, p.desiredState, p.desiredVersion)
      && after.outbox == Enqueue(s.outbox, [FirstPut(p, ovn, url, s.clock)])
      && after.clock == s.clock && after.accepted == s.accepted && after.workers.Keys == s.workers.Keys + {n}
  {
    hide Enqueue, FirstPut, IsPath, Follows;
    var opening := PutStarts(intent, s, n);
    var ending := PutEnds(intent, opening[3], n, ovn, url, s.pub.value);
    PathsJoin(intent, opening, ending);
    path := opening + ending[1..];
  }

  /** Worker `n` claims, decides and renews: it may now put. */
  lemma PutStarts(intent: Id, s: State, n: nat) returns (path: seq<State>)
    requires Waiting(s, n) && !s.pub.value.desiredState.WithdrawnState?
    ensures IsPath(intent, path) && path[0] == s && |path| == 4
    ensures var p := Claimed(s.pub.value, s.clock + 30);
      path[3] == s.(pub := Some(p), workers := s.workers[n := Worker(Putting(None), p, s.clock + 30)], last := n)
  {
    var until := s.clock + 30;
    var p := Claimed(s.pub.value, until);
    var s1 := s.(pub := Some(p), workers := s.workers[n := Worker(Deciding, p, until)], last := n);
    var s2 := s1.(workers := s1.workers[n := Worker(RenewingPut, p, until)]);
    var s3 := s2.(pub := Some(p.(leaseUntil := Some(until))),
        workers := s2.workers[n := Worker(Putting(None), p, until)]);
    assert Next(intent, s, Claim(n, until), s1);
    assert Next(intent, s1, Work(n, Check(true, false)), s2);
    assert Next(intent, s2, Work(n, Renew(until)), s3);
    path := [s, s1, s2, s3];
    hide Next;
    assert s3.workers == s.workers[n := Worker(Putting(None), p, until)];
  }

  lemma PutEnds(intent: Id, s: State, n: nat, ovn: nat, url: Id, asked: Publication) returns (path: seq<State>)
    requires n in s.workers && s.dss.Absent? && ovn != NO_OVN && asked.intent == intent && asked.ovn == NO_OVN
    requires var p := Claimed(asked, s.clock + 30);
      s.workers[n] == Worker(Putting(None), p, s.clock + 30) && s.pub == Some(p)
    ensures IsPath(intent, path) && path[0] == s && |path| == 4
    ensures path[2] == s.(dss := path[2].dss, workers := path[2].workers) && n in path[2].workers
    ensures path[2].workers[n].phase.Confirming?
    ensures path[2].workers[n].phase.used.subscribers == [url]
    ensures var after := path[3];
      && after.pub.Some? && after.pub.value.syncStatus.Confirmed? && after.pub.value.intent == intent
      && after.pub.value.ovn == ovn
      && after.pub.value.leaseUntil.None? && after.dss == Held(ovn, 1, asked.desiredState, asked.desiredVersion)
      && after.outbox == Enqueue(s.outbox, [FirstPut(asked, ovn, url, s.clock)])
      && after.clock == s.clock && after.accepted == s.accepted && after.workers.Keys == s.workers.Keys
  {
    hide Enqueue;
    var until := s.clock + 30;
    var p := Claimed(asked, until);
    var receipt := Receipt(1, ovn, NO_ID, [url]);
    var added := [FirstPut(asked, ovn, url, s.clock)];
    var confirmed := ConfirmedCopy(p, receipt);
    var s4 := s.(dss := Held(ovn, 1, p.desiredState, p.desiredVersion),
        workers := s.workers[n := Worker(Putting(Some(Performed(receipt))), p, until)]);
    var s5 := s4.(workers := s4.workers[n := Worker(Confirming(receipt, added), confirmed, until)]);
    var s6 := s5.(pub := Some(Written(confirmed, p.revision)),
        workers := s5.workers[n := Worker(Finished, confirmed, until)],
                  outbox := Enqueue(s.outbox, added));
    assert Next(intent, s, Work(n, Process(ovn, NO_ID, [url])), s4);
    assert Next(intent, s4, Work(n, Return(false, false, Some([NO_ID]))), s5) by {
      assert PeerNotifications(p, receipt, false, Some([NO_ID]), s.clock).value == added;
    }
    assert Next(intent, s5, Work(n, Write(0)), s6);
    path := [s, s4, s5, s6];
    hide Next;
  }

  /** Worker `n` deletes the reference without subscribers, and confirms the withdrawal. */
  lemma WithdrawalPath(intent: Id, s: State, n: nat) returns (path: seq<State>)
    requires Waiting(s, n) && s.pub.value.intent == intent && s.pub.value.desiredState.WithdrawnState?
    requires s.dss.Held? && s.dss.ovn == s.pub.value.ovn && s.dss.ovn != NO_OVN
    ensures IsPath(intent, path) && path[0] == s && |path| == 7
    ensures var after := path[6];
      && after.pub.Some? && after.pub.value.syncStatus.Withdrawn? && after.pub.value.intent == intent
      && after.pub.value.leaseUntil.None?
      && after.dss.Absent? && after.outbox == s.outbox && after.clock == s.clock && after.accepted == s.accepted
      && after.workers.Keys == s.workers.Keys + {n}
  {
    var until := s.clock + 30;
    var p := Claimed(s.pub.value, until);
    var receipt := Receipt(s.dss.version, s.dss.ovn, NO_ID, []);
    var applied := ApplyReceipt(p, receipt);
    var s1 := s.(pub := Some(p), workers := s.workers[n := Worker(Deciding, p, until)], last := n);
    var s2 := s1.(workers := s1.workers[n := Worker(RenewingDelete, p, until)]);
    var s3 := s2.(pub := Some(p.(leaseUntil := Some(until))),
        workers := s2.workers[n := Worker(Deleting(None), p, until)]);
    var s4 := s3.(dss := Absent, workers := s3.workers[n := Worker(Deleting(Some(Performed(receipt))), p, until)]);
    var s5 := s4.(workers := s4.workers[n := Worker(ConfirmingWithdrawal(receipt, []), applied, until)]);
    var s6 := s5.(pub := Some(Written(WithdrawnCopy(applied), p.revision)),
        workers := s5.workers[n := Worker(Finished, applied, until)]);
    assert Next(intent, s, Claim(n, until), s1);
    assert Next(intent, s1, Work(n, Check(true, false)), s2);
    assert Next(intent, s2, Work(n, Renew(until)), s3);
    assert Next(intent, s3, Work(n, Process(s.dss.ovn, NO_ID, [])), s4);
    assert Next(intent, s4, Work(n, Return(false, false, Some([]))), s5) by {
      assert PeerNotifications(applied, receipt, true, Some([]), s.clock).value == [];
    }
    assert Next(intent, s5, Work(n, Write(0)), s6) by {
      assert Enqueue(s.outbox, []) == s.outbox;
    }
    path := [s, s1, s2, s3, s4, s5, s6];
    hide Next;
  }

  lemma RequestPath(intent: Id, s: State, version: int, desired: ExternalState) returns (path: seq<State>)
    requires !desired.Unconfirmed? && (desired.WithdrawnState? || version in s.accepted)
    ensures IsPath(intent, path) && |path| == 2 && path[0] == s
    ensures path[1] == s.(pub := Some(Requested(s.pub, PublicationRequest(intent, version, desired, s.clock))))
  {
    var s' := s.(pub := Some(Requested(s.pub, PublicationRequest(intent, version, desired, s.clock))));
    assert Next(intent, s, Request(version, desired), s');
    path := [s, s'];
    hide Next;
  }

  /** A reference created, withdrawn and created again starts over at version 1: its second confirmation finds the
      subscriber's identity in the queue and adds nothing. Taking a withdrawal back is what it needs. */
  lemma RecreationQueuesNothing(intent: Id, version: int, url: Id) returns (run: seq<State>)
    requires version != 0
    ensures IsRun(intent, run) && |run| == 23
    ensures var before, after := run[21], run[22];
      && !Closed(before.pub) && Closed(after.pub) && after.pub.value.syncStatus.Confirmed? && 3 in before.workers
      && before.workers[3].phase.Confirming? && before.workers[3].phase.used.subscribers == [url]
      && after.outbox == before.outbox
  {
    hide IsRun, IsPath, Enqueue, PeerNotification;
    var s1 := INITIAL.(accepted := {version});
    var open := AcceptedPath(intent, version);
    var ask := RequestPath(intent, s1, version, AcceptedState);
    var put := CreationPath(intent, ask[1], 1, 7, url);
    var end := RequestPath(intent, put[6], version, WithdrawnState);
    var drop := WithdrawalPath(intent, end[1], 2);
    var again := RequestPath(intent, drop[6], version, AcceptedState);
    var second := CreationPath(intent, again[1], 3, 8, url);
    PathsJoin(intent, open, ask);
    PathsJoin(intent, open + ask[1..], put);
    PathsJoin(intent, open + ask[1..] + put[1..], end);
    PathsJoin(intent, open + ask[1..] + put[1..] + end[1..], drop);
    PathsJoin(intent, open + ask[1..] + put[1..] + end[1..] + drop[1..], again);
    PathsJoin(intent, open + ask[1..] + put[1..] + end[1..] + drop[1..] + again[1..], second);
    run := open + ask[1..] + put[1..] + end[1..] + drop[1..] + again[1..] + second[1..];
    PathIsRun(intent, run);
    SecondAddsNothing(ask[1].pub.value, again[1].pub.value, url);
  }

  lemma AcceptedPath(intent: Id, version: int) returns (path: seq<State>)
    requires version != 0
    ensures IsPath(intent, path) && path == [INITIAL, INITIAL.(accepted := {version})]
  {
    path := [INITIAL, INITIAL.(accepted := {version})];
    assert Next(intent, path[0], AcceptVersion(version), path[1]);
    hide Next;
  }

  lemma PathIsRun(intent: Id, run: seq<State>)
    requires IsPath(intent, run) && run[0] == INITIAL
    ensures IsRun(intent, run)
  {
    hide Follows;
  }

  lemma SecondAddsNothing(p: Publication, q: Publication, url: Id)
    requires p.intent == q.intent
    ensures var first := Enqueue(map[], [FirstPut(p, 7, url, 0)]);
      Enqueue(first, [FirstPut(q, 8, url, 0)]) == first
  {
    var queued := [FirstPut(p, 7, url, 0)];
    assert queued[..0] == [] && [FirstPut(q, 8, url, 0)][..0] == [];
  }
}
