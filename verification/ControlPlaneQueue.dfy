/** What every run of the whole system guarantees about peer notifications: who gets a fresh one when a publication
    closes, and that none is ever lost. */
module ControlPlaneQueue {
  import opened Domain
  import opened StoreState
  import opened ControlPlane
  import opened ControlPlaneInvariant
  import opened ControlPlaneGuarantees
  import O = Operations
  import P = PublicationProtocol
  import PQ = PublicationQueue
  import N = NotificationOutbox
  import ServiceMoves

  /* ---- fresh notifications ---- */

  /** A publication becomes closed only by a worker's closing write, which is a step of its protocol. */
  lemma ClosingIsWork(setup: Setup, s: System, m: Move, s': System, id: Id)
    requires SysInv(setup, s) && Moves(setup, s, m, s')
    requires !P.Closed(StoredPublication(s.w.d, id)) && P.Closed(StoredPublication(s'.w.d, id))
    ensures m.Work? && m.worker in s.workers && s.workers[m.worker].p.intent == id && m.worker in View(s, id).workers
    ensures P.Works(View(s, id), m.worker, m.event, View(s', id))
    ensures View(s, id).workers[m.worker] == s.workers[m.worker]
  {
    var core := s'.(accepted := s.accepted);
    hide SysInv, Acts, AskedRightly;
    if m.Claim? || m.ClaimDue? {
      ClaimsProcess(setup, s, m, core, id);
    } else if m.Work? {
      WorkOf(setup, s, m, core);
      WorkIsStep(setup, s, m.worker, m.event, core, id) by { hide Works; }
      WorkKeepsIntents(s, m.worker, m.event, core) by { hide Works; }
      NothingToRemember(setup, s, s');
      hide Works, View, P.Works;
    } else {
      OtherMovesAsk(setup, s, m, core, id);
      AskedNotClosed(id, s.clock, StoredPublication(s.w.d, id), StoredPublication(core.w.d, id));
    }
  }

  lemma AskedNotClosed(id: Id, now: int, before: Option<Publication>, after: Option<Publication>)
    requires AskedRightly(id, now, before, after) && !P.Closed(before)
    ensures !P.Closed(after)
  {
  }

  /** Whenever a publication of the real system becomes Confirmed, every subscriber of the receipt used gets a fresh
      notification: none of its identity was in the queue. */
  lemma ConfirmationsNotifyAll(setup: Setup, run: seq<System>, k: nat, id: Id)
    requires IsRun(setup, run) && k + 1 < |run|
    requires !P.Closed(StoredPublication(run[k].w.d, id)) && P.Closed(StoredPublication(run[k + 1].w.d, id))
    requires id in run[k + 1].w.d.publications && run[k + 1].w.d.publications[id].syncStatus.Confirmed?
    ensures exists n :: n in run[k].workers && ClosesFreshly(run[k], run[k + 1], id, n)
  {
    hide *;
    RunKeepsInv(setup, run, k);
    FollowsAt(setup, run, k);
    FollowsFreshly(setup, run[k], run[k + 1], id);
  }

  ghost predicate ClosesFreshly(s: System, s': System, id: Id, n: nat)
    requires n in s.workers && id in s'.w.d.publications
  {
    var w, closed := s.workers[n], s'.w.d.publications[id];
    && w.p.intent == id && P.Closes(w, closed)
    && forall k :: 0 <= k < |w.phase.used.subscribers| ==>
         var nid := P.ClosingIdentity(w, closed, k);
         nid !in s.w.d.notifications && nid in s'.w.d.notifications && P.FreshFor(w, k, s'.w.d.notifications[nid])
  }

  lemma FollowsFreshly(setup: Setup, s: System, s': System, id: Id)
    requires SysInv(setup, s) && Follows(setup, s, s') && !P.Closed(StoredPublication(s.w.d, id))
    requires P.Closed(StoredPublication(s'.w.d, id))
    requires id in s'.w.d.publications && s'.w.d.publications[id].syncStatus.Confirmed?
    ensures exists n :: n in s.workers && ClosesFreshly(s, s', id, n)
  {
    hide SysInv, Moves, View, P.Works;
    var m :| Moves(setup, s, m, s');
    ClosingIsWork(setup, s, m, s', id);
    ViewAt(setup, s, id);
    StepOfWork(id, View(s, id), m.worker, m.event, View(s', id));
    ViewPub(s, id);
    ViewPub(s', id);
    hide ViewOk;
    FreshStep(id, View(s, id), m.worker, m.event, View(s', id));
    assert ClosesFreshly(s, s', id, m.worker) by { hide P.Closes, P.ClosingIdentity, P.FreshFor; }
  }

  lemma ViewPub(s: System, id: Id)
    ensures View(s, id).pub == StoredPublication(s.w.d, id) && View(s, id).outbox == s.w.d.notifications
  {
  }

  lemma FreshStep(id: Id, v: P.State, n: nat, e: P.WorkerEvent, v': P.State)
    requires ViewOk(id, v) && P.Next(id, v, P.Work(n, e), v') && !P.Closed(v.pub) && P.Closed(v'.pub)
    requires v'.pub.value.syncStatus.Confirmed?
    ensures n in v.workers && P.Closes(v.workers[n], v'.pub.value)
    ensures var w := v.workers[n];
      forall k :: 0 <= k < |w.phase.used.subscribers| ==>
        var nid := P.ClosingIdentity(w, v'.pub.value, k);
        nid !in v.outbox && nid in v'.outbox && P.FreshFor(w, k, v'.outbox[nid])
  {
    hide P.Inv, PQ.QueueBehind, P.Next;
    PQ.ConfirmingQueuesAll(id, v, P.Work(n, e), v');
  }

  /* ---- the queue ---- */

  /** Every queued notification is still there, and unchanged if it was delivered. */
  ghost predicate QueueStays(records: map<NotificationId, Notification>, records': map<NotificationId, Notification>) {
    forall id :: id in records ==> id in records' && N.StaysQueued(records[id], records'[id])
  }

  lemma SameQueue(records: map<NotificationId, Notification>)
    ensures QueueStays(records, records)
  {
  }

  lemma MoveKeepsQueue(setup: Setup, s: System, m: Move, s': System)
    requires SysInv(setup, s) && Moves(setup, s, m, s')
    ensures QueueStays(s.w.d.notifications, s'.w.d.notifications)
  {
    var core := s'.(accepted := s.accepted);
    assert Acts(setup, s, m, core) by { hide Acts, SysInv; }
    hide *;
    SameQueue(s.w.d.notifications);
    match m
    case Work(n, e) => WorkOf(setup, s, m, core); WorkKeepsQueue(setup, s, n, e, core);
    case Take(n, digest, leaseUntil) => TakeKeepsQueue(setup, s, n, digest, leaseUntil, core);
    case Deliver(n, delivered, next) => DeliverKeepsQueue(setup, s, n, delivered, next, core);
    case _ => OtherMovesKeepQueue(setup, s, m, core);
  }

  /** Only closing publications and deliveries touch the queue. */
  lemma OtherMovesKeepQueue(setup: Setup, s: System, m: Move, s': System)
    requires SysInv(setup, s) && Acts(setup, s, m, s') && !m.Work? && !m.Take? && !m.Deliver?
    ensures s'.w.d.notifications == s.w.d.notifications
  {
    hide *;
    match m
    case Service(step) => ServiceKeepsQueue(setup, s, step, s');
    case Claim(n, id, leaseUntil) => ClaimShape(setup, s, n, id, leaseUntil, s'); ClaimsKeepIntents(s, n, s');
    case ClaimDue(n, leaseUntil) => var p := DueClaim(setup, s, n, leaseUntil, s'); ClaimsKeepIntents(s, n, s');
    case RequestActivation(_, _) => AskingMovesKeepIntents(setup, s, m, s');
    case Compensate(_) => AskingMovesKeepIntents(setup, s, m, s');
    case _ => StillWorld(setup, s, m, s');
  }

  lemma ServiceKeepsQueue(setup: Setup, s: System, step: O.Step, s': System)
    requires SysInv(setup, s) && Acts(setup, s, Service(step), s')
    ensures s'.w.d.notifications == s.w.d.notifications
  {
    hide *;
    ServiceActs(setup, s, step, s');
    ServiceMoves.StepEffect(setup, s, step, s'.w);
    EffectKeepsQueue(setup, s.publishing, s.clock, s.w.d, s'.w.d);
  }

  lemma EffectKeepsQueue(setup: Setup, publishing: bool, now: int, d: Data, d': Data)
    requires ServiceMoves.ServiceEffect(setup, publishing, now, d, d')
    ensures d'.notifications == d.notifications
  {
    hide ServiceMoves.ShiftEffect;
  }

  lemma WorkKeepsQueue(setup: Setup, s: System, n: nat, e: P.WorkerEvent, s': System)
    requires SysInv(setup, s) && n in s.workers && Works(s, n, e, s')
    ensures QueueStays(s.w.d.notifications, s'.w.d.notifications)
  {
    hide *;
    ViewAt(setup, s, s.workers[n].p.intent);
    CopyBelongs(s, n);
    SameQueue(s.w.d.notifications);
    if e.Renew? {
      RenewalView(s, n, e, s');
    } else if e.Write? {
      ClosingView(s, n, e, s');
      EnqueueKeepsQueue(s.w.d.notifications, P.Queued(s.workers[n]));
    } else {
      QuietView(s, n, e, s');
    }
  }

  lemma EnqueueKeepsQueue(records: map<NotificationId, Notification>, added: seq<Notification>)
    ensures QueueStays(records, Enqueue(records, added))
  {
    P.EnqueueContains(records, added);
    hide Enqueue;
  }

  lemma TakeKeepsQueue(setup: Setup, s: System, n: nat, digest: Digest, leaseUntil: int, s': System)
    requires SysInv(setup, s) && Acts(setup, s, Take(n, digest, leaseUntil), s')
    ensures QueueStays(s.w.d.notifications, s'.w.d.notifications)
  {
    hide *;
    QueueOf(setup, s);
    var copy := TakenCopy(setup, s, n, digest, leaseUntil, s');
    TakenStays(N.Queue(s.w.d.notifications, s.deliveries), digest, n, s.clock, leaseUntil, s'.w.d.notifications, copy);
  }

  lemma TakenCopy(setup: Setup, s: System, n: nat, digest: Digest, leaseUntil: int, s': System)
      returns (copy: Notification)
    requires Acts(setup, s, Take(n, digest, leaseUntil), s')
    ensures n !in s.deliveries
    ensures TakesDue(s.w.d.notifications, digest, s.clock, leaseUntil, 1, s'.w.d.notifications, [copy])
  {
    hide TakesDue;
    copy :| TakesDue(s.w.d.notifications, digest, s.clock, leaseUntil, 1, s'.w.d.notifications, [copy])
            && s' == s.(w := s.w.(d := s.w.d.(notifications := s'.w.d.notifications)),
               deliveries := s.deliveries[n := copy]);
  }

  lemma TakenStays(q: N.Queue, digest: Digest, n: nat, now: int, leaseUntil: int,
                   records: map<NotificationId, Notification>, copy: Notification)
    requires N.QueueInv(q) && n !in q.copies && TakesDue(q.records, digest, now, leaseUntil, 1, records, [copy])
    ensures QueueStays(q.records, records)
  {
    hide TakesDue, N.QueueInv, N.Moves, N.StaysQueued;
    QueueKeyed(q);
    N.DueClaimTakes(q, digest, n, now, leaseUntil, records, copy);
    N.StepKeepsQueue(q, N.Take(n, copy.id, now, leaseUntil), N.Queue(records, q.copies[n := copy]));
  }

  lemma QueueKeyed(q: N.Queue)
    requires N.QueueInv(q)
    ensures KeyedNotifications(q.records)
  {
  }

  lemma DeliverKeepsQueue(setup: Setup, s: System, n: nat, delivered: bool, nextAttemptAt: int, s': System)
    requires SysInv(setup, s) && Acts(setup, s, Deliver(n, delivered, nextAttemptAt), s')
    ensures QueueStays(s.w.d.notifications, s'.w.d.notifications)
  {
    QueueOf(setup, s) by { hide Acts, SysInv; }
    DeliverShape(setup, s, n, delivered, nextAttemptAt, s') by { hide Acts, SysInv; }
    hide SysInv, Acts, N.QueueInv, N.Moves, N.StaysQueued;
    var q, q' := N.Queue(s.w.d.notifications, s.deliveries), N.Queue(s'.w.d.notifications, s.deliveries - {n});
    N.StepKeepsQueue(q, N.Conclude(n, delivered, s.clock, nextAttemptAt), q');
  }

  lemma FollowsKeepsQueue(setup: Setup, s: System, s': System)
    requires SysInv(setup, s) && Follows(setup, s, s')
    ensures QueueStays(s.w.d.notifications, s'.w.d.notifications)
  {
    hide SysInv, Moves, QueueStays;
    var m :| Moves(setup, s, m, s');
    MoveKeepsQueue(setup, s, m, s');
  }

  /** In every run of the whole system a queued notification stays queued, and once delivered its record never changes,
      whatever the services, the workers and late deliveries do. */
  lemma {:induction false} NotificationsStay(setup: Setup, run: seq<System>, i: nat, j: nat, id: NotificationId)
    requires IsRun(setup, run) && i <= j < |run| && id in run[i].w.d.notifications
    ensures id in run[j].w.d.notifications && N.StaysQueued(run[i].w.d.notifications[id], run[j].w.d.notifications[id])
  {
    hide *;
    if i == j {
      SameQueue(run[i].w.d.notifications);
      QueuedHere(run[i].w.d.notifications, run[j].w.d.notifications, id);
    } else {
      NotificationsStay(setup, run, i, j - 1, id);
      RunKeepsInv(setup, run, j - 1);
      FollowsAt(setup, run, j - 1);
      FollowsKeepsQueue(setup, run[j - 1], run[j]);
      QueuedHere(run[j - 1].w.d.notifications, run[j].w.d.notifications, id);
      StaysTransitive(run[i].w.d.notifications[id], run[j - 1].w.d.notifications[id], run[j].w.d.notifications[id]);
    }
  }

  lemma QueuedHere(records: map<NotificationId, Notification>, records': map<NotificationId, Notification>,
                   id: NotificationId)
    requires QueueStays(records, records') && id in records
    ensures id in records' && N.StaysQueued(records[id], records'[id])
  {
    hide N.StaysQueued;
  }

  lemma StaysTransitive(a: Notification, b: Notification, c: Notification)
    requires N.StaysQueued(a, b) && N.StaysQueued(b, c)
    ensures N.StaysQueued(a, c)
  {
  }

  /* ---- first withdrawals ---- */

  predicate ClosedAsWithdrawn(pub: Option<Publication>) { pub.Some? && pub.value.syncStatus.Withdrawn? }

  lemma WorkDeletes(setup: Setup, s: System, n: nat, e: P.WorkerEvent, s': System, id: NotificationId)
    requires SysInv(setup, s) && n in s.workers && Works(s, n, e, s')
    requires id in s'.w.d.notifications && id !in s.w.d.notifications && id.Deletion?
    ensures ClosedAsWithdrawn(StoredPublication(s'.w.d, id.intent))
  {
    hide *;
    var own := s.workers[n].p.intent;
    ViewAt(setup, s, own);
    WorkIsStep(setup, s, n, e, s', own);
    ViewPub(s, own);
    ViewPub(s', own);
    ViewInv(own, View(s, own));
    PQ.DeletionsByWithdrawal(own, View(s, own), n, e, View(s', own), id);
    AsWithdrawn(StoredPublication(s'.w.d, own));
  }

  lemma AsWithdrawn(pub: Option<Publication>)
    ensures ClosedAsWithdrawn(pub) <==> pub.Some? && pub.value.syncStatus.Withdrawn?
  {
  }

  lemma ViewInv(id: Id, v: P.State)
    requires ViewOk(id, v)
    ensures P.Inv(id, v)
  {
    hide P.Inv, PQ.QueueBehind;
  }

  /** Taking and delivering leave the identities in the queue as they are. */
  lemma DeliveriesKeepKeys(setup: Setup, s: System, m: Move, s': System)
    requires SysInv(setup, s) && Acts(setup, s, m, s') && (m.Take? || m.Deliver?)
    ensures s'.w.d.notifications.Keys == s.w.d.notifications.Keys
  {
    hide *;
    if m.Deliver? {
      DeliverShape(setup, s, m.worker, m.delivered, m.nextAttemptAt, s');
    } else {
      TakeKeys(setup, s, m.worker, m.digest, m.leaseUntil, s');
    }
  }

  lemma TakeKeys(setup: Setup, s: System, n: nat, digest: Digest, leaseUntil: int, s': System)
    requires Acts(setup, s, Take(n, digest, leaseUntil), s')
    ensures s'.w.d.notifications.Keys == s.w.d.notifications.Keys
  {
  }

  lemma MoveDeletes(setup: Setup, s: System, m: Move, s': System, id: NotificationId)
    requires SysInv(setup, s) && Moves(setup, s, m, s')
    requires id in s'.w.d.notifications && id !in s.w.d.notifications && id.Deletion?
    ensures ClosedAsWithdrawn(StoredPublication(s'.w.d, id.intent))
  {
    var core := s'.(accepted := s.accepted);
    assert Acts(setup, s, m, core) by { hide Acts, SysInv; }
    hide *;
    match m
    case Work(n, e) => WorkOf(setup, s, m, core); WorkDeletes(setup, s, n, e, core, id);
    case Take(_, _, _) => DeliveriesKeepKeys(setup, s, m, core);
    case Deliver(_, _, _) => DeliveriesKeepKeys(setup, s, m, core);
    case _ => OtherMovesKeepQueue(setup, s, m, core);
  }

  lemma FollowsDeletes(setup: Setup, s: System, s': System, id: NotificationId)
    requires SysInv(setup, s) && Follows(setup, s, s')
    requires id in s'.w.d.notifications && id !in s.w.d.notifications && id.Deletion?
    ensures ClosedAsWithdrawn(StoredPublication(s'.w.d, id.intent))
  {
    hide SysInv, Moves, ClosedAsWithdrawn;
    var m :| Moves(setup, s, m, s');
    MoveDeletes(setup, s, m, s', id);
  }

  /** A deletion notification of an intent is in the queue only after its publication was once withdrawn. */
  lemma {:induction false} DeletionsFollowWithdrawal(setup: Setup, run: seq<System>, k: nat, id: NotificationId)
    requires IsRun(setup, run) && k < |run| && id in run[k].w.d.notifications && id.Deletion?
    ensures exists j :: 0 <= j <= k && ClosedAsWithdrawn(StoredPublication(run[j].w.d, id.intent))
  {
    hide *;
    if k == 0 {
      RunStarts(setup, run);
      NothingQueued();
    } else if id in run[k - 1].w.d.notifications {
      DeletionsFollowWithdrawal(setup, run, k - 1, id);
    } else {
      RunKeepsInv(setup, run, k - 1);
      FollowsAt(setup, run, k - 1);
      FollowsDeletes(setup, run[k - 1], run[k], id);
    }
  }

  lemma NothingQueued()
    ensures START.w.d.notifications == map[]
  {
  }

  /** Whenever the publication of an intent is withdrawn for the first time, every subscriber of the receipt used gets a
      fresh deletion notification. */
  lemma FirstWithdrawalNotifiesAll(setup: Setup, run: seq<System>, k: nat, id: Id)
    requires IsRun(setup, run) && k + 1 < |run|
    requires !P.Closed(StoredPublication(run[k].w.d, id)) && ClosedAsWithdrawn(StoredPublication(run[k + 1].w.d, id))
    requires forall j :: 0 <= j <= k ==> !ClosedAsWithdrawn(StoredPublication(run[j].w.d, id))
    ensures id in run[k + 1].w.d.publications && exists n ::
      n in run[k].workers && ClosesFreshly(run[k], run[k + 1], id, n)
  {
    hide *;
    RunKeepsInv(setup, run, k);
    FollowsAt(setup, run, k);
    forall nid | nid in run[k].w.d.notifications ensures !(nid.Deletion? && nid.intent == id) {
      if nid.Deletion? && nid.intent == id {
        DeletionsFollowWithdrawal(setup, run, k, nid);
      }
    }
    WithdrawnCloses(run[k + 1].w.d, id);
    FollowsDeleting(setup, run[k], run[k + 1], id);
  }

  lemma WithdrawnCloses(d: Data, id: Id)
    requires ClosedAsWithdrawn(StoredPublication(d, id))
    ensures P.Closed(StoredPublication(d, id)) && id in d.publications && d.publications[id].syncStatus.Withdrawn?
  {
  }

  lemma FollowsDeleting(setup: Setup, s: System, s': System, id: Id)
    requires SysInv(setup, s) && Follows(setup, s, s') && !P.Closed(StoredPublication(s.w.d, id))
    requires P.Closed(StoredPublication(s'.w.d, id))
    requires id in s'.w.d.publications && s'.w.d.publications[id].syncStatus.Withdrawn?
    requires forall nid :: nid in s.w.d.notifications ==> !(nid.Deletion? && nid.intent == id)
    ensures exists n :: n in s.workers && ClosesFreshly(s, s', id, n)
  {
    hide SysInv, Moves, View, P.Works;
    var m :| Moves(setup, s, m, s');
    MoveKeeps(setup, s, m, s');
    KeyedHere(setup, s');
    ClosingIsWork(setup, s, m, s', id);
    ViewAt(setup, s, id);
    StepOfWork(id, View(s, id), m.worker, m.event, View(s', id));
    ViewPub(s, id);
    ViewPub(s', id);
    hide ViewOk;
    DeletingStep(id, View(s, id), m.worker, m.event, View(s', id));
    assert ClosesFreshly(s, s', id, m.worker) by { hide P.Closes, P.ClosingIdentity, P.FreshFor; }
  }

  lemma DeletingStep(id: Id, v: P.State, n: nat, e: P.WorkerEvent, v': P.State)
    requires ViewOk(id, v) && P.Next(id, v, P.Work(n, e), v') && !P.Closed(v.pub) && P.Closed(v'.pub)
    requires v'.pub.value.syncStatus.Withdrawn?
    requires v'.pub.value.intent == id && forall nid :: nid in v.outbox ==> !(nid.Deletion? && nid.intent == id)
    ensures n in v.workers && P.Closes(v.workers[n], v'.pub.value)
    ensures var w := v.workers[n];
      forall k :: 0 <= k < |w.phase.used.subscribers| ==>
        var nid := P.ClosingIdentity(w, v'.pub.value, k);
        nid !in v.outbox && nid in v'.outbox && P.FreshFor(w, k, v'.outbox[nid])
  {
    hide P.Inv, PQ.QueueBehind, P.Next, P.FreshFor;
    P.ClosingNotifies(id, v, P.Work(n, e), v');
  }
}
