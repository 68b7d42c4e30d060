/** The whole system: the service calls of Operations with the publication requests they really make, the workers that
    reconcile every intent's publication with the DSS, and the delivery of peer notifications, all on one store. */
module ControlPlane {
  import opened Domain
  import opened StoreState
  import L = IntentLifecycle
  import F = FleetFences
  import O = Operations
  import P = PublicationProtocol
  import N = NotificationOutbox
  import PR = PublicationRequests

  /** compensatePublishedActivation between its reads: the intent and the publication, then the published version. */
  datatype Compensating =
    | Noticed(current: Intent, pub: Publication)
    | Checked(current: Intent, pub: Publication, published: Intent)

  /** `dss` and `last` go by intent; `accepted` collects every version ever stored as accepted; `confirmed` holds the
      intent snapshots for which an activation then found its publication confirmed; `deliveries` are the
      notifications taken and not yet reported on. */
  datatype System = System(
    w: O.World, dss: map<Id, P.Reference>, workers: map<nat, P.Worker>, last: map<Id, nat>, clock: int,
      publishing: bool,
    accepted: set<IntentKey>, confirmed: set<Intent>, compensations: map<nat, Compensating>,
      deliveries: map<nat, Notification>)

  const START := System(O.START, map[], map[], map[], 0, false, {}, {}, map[], map[])

  /** The fleet, and the intents whose identity the DSS can hold. */
  datatype Setup = Setup(fleet: F.Fleet, canonical: set<Id>)

  datatype Move =
    | Service(step: O.Step)
    | EnablePublishing
    | FindConfirmed(snapshot: Intent)
    | RequestActivation(snapshot: Intent, desired: ExternalState)
    | NoticeActivation(caller: nat, snapshot: Intent)
    | ReadPublished(caller: nat)
    | Compensate(caller: nat)
    | Claim(worker: nat, intent: Id, leaseUntil: int)
    | ClaimDue(worker: nat, leaseUntil: int)
    | Work(worker: nat, event: P.WorkerEvent)
    | Take(worker: nat, digest: Digest, leaseUntil: int)
    | Deliver(worker: nat, delivered: bool, nextAttemptAt: int)
    | Tick(to: int)

  ghost function AcceptedKeys(d: Data): set<IntentKey> { set k | k in d.intents && d.intents[k].status.Accepted? }

  /* ---- the requests the services make ---- */

  /** Acceptance, completion and cancellation request the external state in the same store call, once publication is
      enabled; an intent the DSS cannot hold is not accepted then, and ends without a request. */
  predicate RequestsRightly(setup: Setup, s: System, step: O.Step) {
    match step
    case Publish(_, _) => false
    case Accept(i, request) =>
      if s.publishing then i.id in setup.canonical &&
        request == Some(P.PublicationRequest(i.id, i.version, AcceptedState, s.clock))
      else request.None?
    case Transition(i, next, request) =>
      request == if s.publishing && i.id in setup.canonical && !next.Submitted?
                 then Some(P.PublicationRequest(i.id, i.version, WithdrawnState, s.clock)) else None
    case _ => true
  }

  /** What an activation demands of the publication it reads before it asks for the Activated state. */
  predicate PublishedAsAccepted(p: Publication, version: int) {
    p.publishedVersion == version && p.syncStatus.Confirmed? && p.confirmedState.AcceptedState?
  }

  /** A request for the newest version at the revision and in the status the caller read. */
  ghost function Requests(d: Data, current: Intent, request: Publication): Data {
    RequestIfCurrent(d, request, current.version, current.revision, current.status).0
  }

  function CompensationRequest(c: Compensating, now: int): Option<Publication> {
    PR.Compensation(c.current, c.pub, if c.Checked? then Some(c.published) else None, now)
  }

  /* ---- one intent's publication as the protocol sees it ---- */

  ghost function View(s: System, id: Id): P.State {
    P.State(StoredPublication(s.w.d, id), if id in s.dss then s.dss[id] else P.Absent, WorkersOf(s.workers, id),
            if id in s.last then s.last[id] else 0, s.clock, VersionsOf(s.accepted, id), s.w.d.notifications)
  }

  ghost function WorkersOf(workers: map<nat, P.Worker>, id: Id): map<nat, P.Worker> {
    map n | n in workers && workers[n].p.intent == id :: workers[n]
  }

  ghost function VersionsOf(accepted: set<IntentKey>, id: Id): set<int> { set k | k in accepted && k.0 == id :: k.1 }

  /** A worker's store call, as the store performs it: the renewal of its lease or its closing write. */
  function StoreCall(d: Data, w: P.Worker, e: P.WorkerEvent): (Data, Outcome) {
    match e
    case Renew(leaseUntil) => RenewLease(d, w.p.intent, w.p.revision, leaseUntil)
    case Write(nextAttemptAt) =>
      if P.Offer(w, nextAttemptAt).None? then (d, NotFound)
      else if w.phase.Failing? then UpdatePublication(d, P.Offer(w, nextAttemptAt).value, w.p.revision)
      else ConfirmPublication(d, P.Offer(w, nextAttemptAt).value, w.p.revision, P.Queued(w))
    case _ => (d, Done)
  }

  /** Where the store's answer takes the worker. */
  function AfterStoreCall(w: P.Worker, e: P.WorkerEvent, r: Outcome): P.Worker {
    if e.Renew? && r.Done? then P.Worker(if w.phase.RenewingDelete? then P.Deleting(None) else P.Putting(None), w.p,
      e.leaseUntil)
    else P.Move(w, P.Finished)
  }

  predicate MayCallStore(w: P.Worker, e: P.WorkerEvent) {
    match e
    case Renew(_) => w.phase.RenewingDelete? || w.phase.RenewingPut?
    case Write(nextAttemptAt) => P.Offer(w, nextAttemptAt).Some?
    case _ => false
  }

  ghost predicate Works(s: System, n: nat, e: P.WorkerEvent, s': System)
    requires n in s.workers
  {
    var w := s.workers[n];
    var id := w.p.intent;
    if e.Renew? || e.Write? then
      && MayCallStore(w, e)
      && var r := StoreCall(s.w.d, w, e);
         s' == s.(w := s.w.(d := r.0), workers := s.workers[n := AfterStoreCall(w, e, r.1)])
    else
      && n in s'.workers && id in s'.dss
      && P.Works(View(s, id), n, e, View(s, id).(dss := s'.dss[id], workers := View(s, id).workers[n := s'.workers[n]]))
      && s' == s.(dss := s.dss[id := s'.dss[id]], workers := s.workers[n := s'.workers[n]])
  }

  ghost predicate Claims(s: System, n: nat, d': Data, p: Publication, leaseUntil: int, s': System) {
    && n !in s.workers
    && s' == s.(w := s.w.(d := d'), workers := s.workers[n := P.Worker(P.Deciding, p, leaseUntil)],
       last := s.last[p.intent := n])
  }

  /** A move, without the record it leaves of accepted versions. */
  ghost predicate Acts(setup: Setup, s: System, m: Move, s': System) {
    match m
    case Service(step) => RequestsRightly(setup, s, step) && O.Next(setup.fleet, s.w, step, s'.w) && s' == s.(w := s'.w)
    case EnablePublishing => s' == s.(publishing := true)
    case FindConfirmed(i) =>
      && i in s.w.seen && i.status.Accepted? && i.id in s.w.d.publications
      && PublishedAsAccepted(s.w.d.publications[i.id], i.version)
      && s' == s.(confirmed := s.confirmed + {i})
    case RequestActivation(i, desired) =>
      && s.publishing && i in s.w.seen && i.status.Accepted? && i.id in setup.canonical
      && (desired.AcceptedState? || (desired.ActivatedState? && i in s.confirmed))
      && s' == s.(w := s.w.(d := Requests(s.w.d, i, P.PublicationRequest(i.id, i.version, desired, s.clock))))
    case NoticeActivation(n, c) =>
      && n !in s.compensations && c in s.w.seen && c.id in s.w.d.publications
      && s' == s.(compensations := s.compensations[n := Noticed(c, s.w.d.publications[c.id])])
    case ReadPublished(n) =>
      && n in s.compensations && s.compensations[n].Noticed? && L.Editable(s.compensations[n].current.status)
      && var c := s.compensations[n];
         && (c.current.id, c.pub.publishedVersion) in s.w.d.intents
         && s' == s.(compensations := s.compensations[n :=
            Checked(c.current, c.pub, s.w.d.intents[(c.current.id, c.pub.publishedVersion)])])
    case Compensate(n) =>
      && n in s.compensations && CompensationRequest(s.compensations[n], s.clock).Some?
      && var c := s.compensations[n];
         s' == s.(w := s.w.(d := Requests(s.w.d, c.current, CompensationRequest(c, s.clock).value)))
    case Claim(n, id, leaseUntil) =>
      var r := ClaimPublication(s.w.d, id, s.clock, leaseUntil);
      r.1.ClaimOk? && Claims(s, n, r.0, r.1.publication, leaseUntil, s')
    case ClaimDue(n, leaseUntil) =>
      exists p :: ClaimsDue(s.w.d.publications, s.clock, leaseUntil, 1, s'.w.d.publications, [p])
                  && Claims(s, n, s.w.d.(publications := s'.w.d.publications), p, leaseUntil, s')
    case Work(n, e) => n in s.workers && Works(s, n, e, s')
    case Take(n, digest, leaseUntil) =>
      && n !in s.deliveries
      && exists copy :: TakesDue(s.w.d.notifications, digest, s.clock, leaseUntil, 1, s'.w.d.notifications, [copy])
           && s' == s.(w := s.w.(d := s.w.d.(notifications := s'.w.d.notifications)),
              deliveries := s.deliveries[n := copy])
    case Deliver(n, delivered, nextAttemptAt) =>
      && n in s.deliveries
      && s' == s.(w := s.w.(d := UpdateNotification(s.w.d,
         N.Reported(s.deliveries[n], delivered, s.clock, nextAttemptAt), s.deliveries[n].revision).0),
                  deliveries := s.deliveries - {n})
    case Tick(to) => s.clock <= to && s' == s.(clock := to)
  }

  ghost predicate Moves(setup: Setup, s: System, m: Move, s': System) {
    && Acts(setup, s, m, s'.(accepted := s.accepted))
    && s'.accepted == s.accepted + AcceptedKeys(s'.w.d)
  }
}
