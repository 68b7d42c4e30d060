/** What every move of the whole system keeps: each intent's publication is a run of the protocol, its requests fit
    the intent's newest version, and the queue only grows. */
module ControlPlaneInvariant {
  import opened Domain
  import opened StoreState
  import opened IntentShifts
  import opened ControlPlane
  import L = IntentLifecycle
  import F = FleetFences
  import O = Operations
  import P = PublicationProtocol
  import PQ = PublicationQueue
  import N = NotificationOutbox

  ghost predicate SysInv(setup: Setup, s: System) {
    && O.Inv(setup.fleet, s.w)
    && (forall id :: ViewOk(id, View(s, id)))
    && Wishes(setup, s.w.d, s.publishing)
    && Snapshots(s)
    && N.QueueInv(N.Queue(s.w.d.notifications, s.deliveries))
    && History(s.w.d, s.accepted)
  }

  ghost predicate ViewOk(id: Id, v: P.State) { P.Inv(id, v) && PQ.QueueBehind(id, v) }

  /** Publications exist only for intents the DSS can hold, once publication is enabled, tied to the newest version. */
  ghost predicate Wishes(setup: Setup, d: Data, publishing: bool) {
    forall id :: id in d.publications ==> publishing && id in setup.canonical && Tied(d.intents, d.publications[id])
  }

  ghost predicate Snapshots(s: System) {
    && (forall i :: i in s.confirmed ==> ConfirmedFact(s.w.d, s.w.seen, i))
    && (forall n :: n in s.compensations ==> CompensationFact(s.w.d, s.w.seen, s.accepted, s.compensations[n]))
  }

  /** While its intent snapshot is still the newest record, the publication an activation found still wants and has
      published that version. */
  ghost predicate ConfirmedFact(d: Data, seen: set<Intent>, i: Intent) {
    && i in seen && i.status.Accepted?
    && (L.IsNewest(d.intents, i) ==> i.id in d.publications && WantsPublished(d.publications[i.id], i.version))
  }

  predicate WantsPublished(p: Publication, version: int) {
    p.desiredVersion == version && p.publishedVersion == version && !p.desiredState.WithdrawnState?
  }

  /** While a compensation's intent snapshot is the newest record and editable, the version it found published is
      stored as accepted. */
  ghost predicate CompensationFact(d: Data, seen: set<Intent>, accepted: set<IntentKey>, c: Compensating) {
    && c.current in seen && c.pub.intent == c.current.id && c.current.id in d.publications
    && (L.Editable(c.current.status) && c.pub.desiredState.ActivatedState? && L.IsNewest(d.intents, c.current) ==>
          StoredAccepted(d.intents, c.current.id, c.pub.publishedVersion))
    && (c.Checked? ==>
          && c.published.id == c.current.id && L.Editable(c.current.status)
          && (c.published.status.Accepted? ==> (c.published.id, c.published.version) in accepted)
          && (c.pub.desiredState.ActivatedState? && L.IsNewest(d.intents, c.current) ==> c.published.status.Accepted?))
  }

  ghost predicate History(d: Data, accepted: set<IntentKey>) {
    AcceptedKeys(d) <= accepted && forall k :: k in accepted ==> k.1 >= 1
  }

  lemma StartInv(setup: Setup)
    ensures SysInv(setup, START)
  {
    O.StartInv(setup.fleet);
    forall id ensures ViewOk(id, View(START, id)) {
      P.InitialInv(id);
      PQ.InitialBehind(id);
      assert View(START, id) == P.INITIAL;
    }
    hide O.Inv, ViewOk;
  }

  /* ---- views ---- */

  /** Versions that count as accepted only get more. */
  lemma MoreAccepted(id: Id, v: P.State, extra: set<int>)
    requires ViewOk(id, v) && 0 !in extra
    ensures ViewOk(id, v.(accepted := v.accepted + extra))
  {
    var v' := v.(accepted := v.accepted + extra);
    forall n | n in v'.workers
      ensures P.FenceOk(v', n) && P.OutcomeOk(v', v'.workers[n]) && P.CopyOk(id, v'.accepted, v'.workers[n])
      ensures PQ.WorkerBehind(id, v', v'.workers[n])
    {
      assert P.FenceOk(v, n) && P.OutcomeOk(v, v.workers[n]) && P.CopyOk(id, v.accepted, v.workers[n]) &&
          PQ.WorkerBehind(id, v, v.workers[n]);
    }
    hide P.FenceOk, P.OutcomeOk, P.CopyOk, PQ.WorkerBehind, PQ.ChangesUpTo, PQ.NoChanges;
  }

  /** The queue changes by deliveries, or for other intents. */
  lemma OtherQueue(id: Id, v: P.State, outbox: map<NotificationId, Notification>)
    requires ViewOk(id, v) && P.SameQueued(id, v.outbox, outbox)
    ensures ViewOk(id, v.(outbox := outbox))
  {
    P.QueueKeeps(id, v, outbox);
    PQ.OutboxBehind(id, v, outbox);
    hide P.Inv, PQ.QueueBehind;
  }

  lemma ProtocolStep(id: Id, v: P.State, step: P.Step, v': P.State)
    requires ViewOk(id, v) && P.Next(id, v, step, v') && PQ.KeepsWithdrawal(v, step)
    ensures ViewOk(id, v')
  {
    hide P.Inv, PQ.QueueBehind, P.Next;
    P.NextKeepsInv(id, v, step, v');
    PQ.NextBehind(id, v, step, v');
  }

  /** A state other than Withdrawn is requested for an accepted version, and never over a wanted withdrawal. */
  lemma RequestedView(id: Id, v: P.State, version: int, desired: ExternalState)
    requires ViewOk(id, v) && !desired.Unconfirmed?
    requires !desired.WithdrawnState? ==> version in v.accepted && !PQ.IsWithdrawn(v.pub)
    ensures ViewOk(id, v.(pub := Some(Requested(v.pub, P.PublicationRequest(id, version, desired, v.clock)))))
  {
    var v' := v.(pub := Some(Requested(v.pub, P.PublicationRequest(id, version, desired, v.clock))));
    hide ViewOk;
    ProtocolStep(id, v, P.Request(version, desired), v');
  }

  /* ---- requests ---- */

  /** A request by revision goes through only for the newest record the caller read. */
  lemma RequestMeansCurrent(d: Data, seen: set<Intent>, c: Intent, request: Publication)
    requires O.SeenOk(d, seen) && c in seen && request.intent == c.id && Requests(d, c, request) != d
    ensures L.IsNewest(d.intents, c)
    ensures Requests(d, c, request) ==
      d.(publications := d.publications[c.id := Requested(StoredPublication(d, c.id), request)])
    ensures IsRequest(d, Requests(d, c, request), request)
  {
  }

  lemma RequestNamesIntent(id: Id, version: int, desired: ExternalState, now: int)
    ensures P.PublicationRequest(id, version, desired, now).intent == id
  {
  }

  lemma PublishKeeps(setup: Setup, w: O.World, d': Data)
    requires O.Inv(setup.fleet, w) && d' == w.d.(publications := d'.publications, notifications := d'.notifications)
    requires KeyedPublications(d'.publications) && KeyedNotifications(d'.notifications)
    ensures O.Inv(setup.fleet, w.(d := d'))
  {
    var step := O.Publish(d'.publications, d'.notifications);
    assert O.Next(setup.fleet, w, step, w.(d := d')) by { hide O.Inv; }
    hide O.Inv, O.Next, O.Evolves;
    O.NextKeepsInv(setup.fleet, w, step, w.(d := d'));
  }

  lemma KeyedOf(setup: Setup, w: O.World)
    requires O.Inv(setup.fleet, w)
    ensures KeyedIntents(w.d.intents) && L.Lifecycle(w.d.intents) && KeyedPublications(w.d.publications)
    ensures KeyedNotifications(w.d.notifications)
    ensures O.SeenOk(w.d, w.seen)
  {
    hide L.Lifecycle, F.Fences, O.SeenOk, O.SeenFlightsOk, O.CallsOk, O.SentOk, KeyedVolumes, KeyedFlights,
        KeyedMissions, KeyedDeployments, KeyedOrder;
  }

  /** What a request for the newest record `c` may ask. */
  ghost predicate RequestFits(d: Data, accepted: set<IntentKey>, c: Intent, version: int, desired: ExternalState) {
    match desired
    case AcceptedState =>
      (c.id, version) in accepted && !Over(c.status) && (c.status.Accepted? ==> version == c.version)
    case ActivatedState =>
      c.status.Accepted? && version == c.version && (c.id, version) in accepted && c.id in d.publications &&
      d.publications[c.id].publishedVersion == version
    case WithdrawnState => Over(c.status)
    case Unconfirmed => false
  }

  ghost predicate IsRequest(d: Data, d': Data, request: Publication) {
    d' == d.(publications := d.publications[request.intent := Requested(StoredPublication(d, request.intent), request)])
  }

  lemma RequestViews(s: System, d': Data, c: Intent, version: int, desired: ExternalState)
    requires forall id :: ViewOk(id, View(s, id))
    requires IsRequest(s.w.d, d', P.PublicationRequest(c.id, version, desired, s.clock)) && L.IsNewest(s.w.d.intents, c)
    requires RequestFits(s.w.d, s.accepted, c, version, desired)
    requires c.id in s.w.d.publications ==>
      s.w.d.publications[c.id].intent == c.id && Tied(s.w.d.intents, s.w.d.publications[c.id])
    ensures forall id :: ViewOk(id, View(s.(w := s.w.(d := d')), id))
  {
    var s' := s.(w := s.w.(d := d'));
    forall id ensures ViewOk(id, View(s', id)) {
      assert ViewOk(id, View(s, id));
      if id == c.id {
        var v := View(s, id);
        if c.id in s.w.d.publications { assert TiedTo(s.w.d.intents, s.w.d.publications[c.id], c); }
        hide ViewOk;
        RequestedView(id, v, version, desired);
        assert View(s', id) == v.(pub := Some(Requested(v.pub, P.PublicationRequest(id, version, desired, v.clock))));
      } else {
        assert View(s', id) == View(s, id);
      }
    }
  }

  lemma RequestWishes(setup: Setup, d: Data, d': Data, accepted: set<IntentKey>, c: Intent, version: int,
                      desired: ExternalState, now: int)
    requires Wishes(setup, d, true) && L.Lifecycle(d.intents) && KeyedPublications(d.publications)
    requires c.id in setup.canonical
    requires IsRequest(d, d', P.PublicationRequest(c.id, version, desired, now)) && L.IsNewest(d.intents, c)
    requires RequestFits(d, accepted, c, version, desired)
    requires c.id in d.publications && !desired.WithdrawnState? ==> !d.publications[c.id].syncStatus.Withdrawn?
    ensures Wishes(setup, d', true)
  {
    var p := d'.publications[c.id];
    assert p.intent == c.id && p.desiredState == desired && p.desiredVersion == version;
    assert (c.id, c.version) in d.intents && (c.id, 1) in d.intents;
    hide L.Lifecycle;
    RequestTied(d.intents, p, c) by { assert KeyedIntents(d.intents); }
    forall id | id in d'.publications ensures id in setup.canonical && Tied(d'.intents, d'.publications[id]) {
      if id != c.id {
        assert id in d.publications && d'.publications[id] == d.publications[id];
      }
    }
  }

  /** Whatever was known of snapshots stays known: the request names the newest record's own version. */
  lemma RequestSnapshots(s: System, d': Data, c: Intent, version: int, desired: ExternalState)
    requires Snapshots(s) && KeyedPublications(s.w.d.publications) && L.IsNewest(s.w.d.intents, c)
    requires IsRequest(s.w.d, d', P.PublicationRequest(c.id, version, desired, s.clock))
    requires RequestFits(s.w.d, s.accepted, c, version, desired)
    requires c.id in s.w.d.publications && !desired.WithdrawnState? ==> !s.w.d.publications[c.id].syncStatus.Withdrawn?
    ensures Snapshots(s.(w := s.w.(d := d')))
  {
    forall i | i in s.confirmed ensures ConfirmedFact(d', s.w.seen, i) {
      assert ConfirmedFact(s.w.d, s.w.seen, i);
      if L.IsNewest(d'.intents, i) && i.id == c.id {
        NewestUnique(d'.intents, i, c);
      }
    }
    forall n | n in s.compensations ensures CompensationFact(d', s.w.seen, s.accepted, s.compensations[n]) {
      assert CompensationFact(s.w.d, s.w.seen, s.accepted, s.compensations[n]);
    }
  }

  lemma Parts(setup: Setup, s: System)
    requires SysInv(setup, s)
    ensures O.Inv(setup.fleet, s.w) && Wishes(setup, s.w.d, s.publishing) && Snapshots(s) && History(s.w.d, s.accepted)
    ensures N.QueueInv(N.Queue(s.w.d.notifications, s.deliveries)) && forall id :: ViewOk(id, View(s, id))
  {
    hide O.Inv, ViewOk, View, Wishes, Snapshots, N.QueueInv, History;
  }

  lemma Made(setup: Setup, s: System)
    requires O.Inv(setup.fleet, s.w) && Wishes(setup, s.w.d, s.publishing) && Snapshots(s) && History(s.w.d, s.accepted)
    requires N.QueueInv(N.Queue(s.w.d.notifications, s.deliveries)) && forall id :: ViewOk(id, View(s, id))
    ensures SysInv(setup, s)
  {
    hide O.Inv, ViewOk, View, Wishes, Snapshots, N.QueueInv, History;
  }

  lemma NotWithdrawnYet(id: Id, v: P.State)
    requires ViewOk(id, v) && v.pub.Some? && v.pub.value.syncStatus.Withdrawn?
    ensures v.pub.value.desiredState.WithdrawnState?
  {
    hide PQ.QueueBehind;
    assert P.RecordOk(id, v);
  }

  lemma RequestKeeps(setup: Setup, s: System, c: Intent, version: int, desired: ExternalState, s': System)
    requires SysInv(setup, s) && s.publishing && c in s.w.seen && c.id in setup.canonical
    requires s' == s.(w := s.w.(d := Requests(s.w.d, c, P.PublicationRequest(c.id, version, desired, s.clock))))
    requires L.IsNewest(s.w.d.intents, c) ==> RequestFits(s.w.d, s.accepted, c, version, desired)
    ensures SysInv(setup, s')
  {
    hide *;
    Parts(setup, s);
    KeyedOf(setup, s.w);
    var d, d' := s.w.d, s'.w.d;
    if d' != d {
      RequestNamesIntent(c.id, version, desired, s.clock);
      RequestMeansCurrent(d, s.w.seen, c, P.PublicationRequest(c.id, version, desired, s.clock));
      NotWithdrawnHere(setup, s, c, version, desired);
      RequestViews(s, d', c, version, desired);
      RequestWishes(setup, d, d', s.accepted, c, version, desired, s.clock);
      RequestSnapshots(s, d', c, version, desired);
      RequestQuiet(d, d', P.PublicationRequest(c.id, version, desired, s.clock), s.accepted);
      PublishKeeps(setup, s.w, d');
      Made(setup, s');
    } else {
      assert s' == s;
    }
  }

  /** A newest intent's publication is tied to it, and is withdrawn only if that is wanted for good. */
  lemma NotWithdrawnHere(setup: Setup, s: System, c: Intent, version: int, desired: ExternalState)
    requires Wishes(setup, s.w.d, s.publishing) && KeyedPublications(s.w.d.publications) && ViewOk(c.id, View(s, c.id))
    requires L.IsNewest(s.w.d.intents, c) && RequestFits(s.w.d, s.accepted, c, version, desired)
    ensures c.id in s.w.d.publications ==>
      s.w.d.publications[c.id].intent == c.id && Tied(s.w.d.intents, s.w.d.publications[c.id])
    ensures c.id in s.w.d.publications && !desired.WithdrawnState? ==> !s.w.d.publications[c.id].syncStatus.Withdrawn?
  {
    if c.id in s.w.d.publications {
      var p := s.w.d.publications[c.id];
      assert Tied(s.w.d.intents, p) && TiedTo(s.w.d.intents, p, c);
      hide Tied, Wishes, L.IsNewest, ViewOk;
      if p.syncStatus.Withdrawn? {
        NotWithdrawnYet(c.id, View(s, c.id));
      }
    }
  }

  lemma RequestQuiet(d: Data, d': Data, request: Publication, accepted: set<IntentKey>)
    requires IsRequest(d, d', request) && KeyedPublications(d.publications) && KeyedNotifications(d.notifications)
    ensures d' == d.(publications := d'.publications, notifications := d'.notifications)
    ensures d'.notifications == d.notifications
    ensures KeyedPublications(d'.publications) && KeyedNotifications(d'.notifications)
    ensures History(d, accepted) ==> History(d', accepted)
  {
    assert d'.intents == d.intents ==> AcceptedKeys(d') == AcceptedKeys(d);
  }

  /* ---- workers ---- */

  /** A worker leaves the wish alone and changes the published version only to the wanted one, or to none. */
  predicate WorkerChanges(p: Publication, p': Publication) {
    && p'.intent == p.intent && p'.desiredState == p.desiredState && p'.desiredVersion == p.desiredVersion
    && (p'.publishedVersion == p.publishedVersion || p'.publishedVersion == p.desiredVersion ||
       p.desiredState.WithdrawnState?)
  }

  ghost predicate WorkerWrite(d: Data, d': Data, id: Id) {
    && d' == d.(publications := d'.publications, notifications := d'.notifications)
    && id in d.publications && id in d'.publications && d'.publications == d.publications[id := d'.publications[id]]
    && WorkerChanges(d.publications[id], d'.publications[id])
  }

  lemma ChangesKeepTied(intents: map<IntentKey, Intent>, p: Publication, p': Publication)
    requires Tied(intents, p) && WorkerChanges(p, p')
    ensures Tied(intents, p')
  {
    forall newest | L.IsNewest(intents, newest) && newest.id == p'.intent ensures TiedTo(intents, p', newest) {
      assert TiedTo(intents, p, newest);
    }
  }

  lemma WorkerWishes(setup: Setup, d: Data, d': Data, publishing: bool, id: Id)
    requires Wishes(setup, d, publishing) && WorkerWrite(d, d', id)
    ensures Wishes(setup, d', publishing)
  {
    forall other | other in d'.publications
      ensures publishing && other in setup.canonical && Tied(d'.intents, d'.publications[other]) {
      assert other in d.publications;
      if other == id {
        ChangesKeepTied(d.intents, d.publications[id], d'.publications[id]);
      }
    }
  }

  lemma WorkerSnapshots(s: System, s': System, id: Id)
    requires Snapshots(s) && WorkerWrite(s.w.d, s'.w.d, id) && s'.w.seen == s.w.seen
    requires s'.confirmed == s.confirmed && s'.compensations == s.compensations && s'.accepted == s.accepted
    ensures Snapshots(s')
  {
    forall i | i in s'.confirmed ensures ConfirmedFact(s'.w.d, s'.w.seen, i) {
      assert ConfirmedFact(s.w.d, s.w.seen, i);
    }
    forall n | n in s'.compensations ensures CompensationFact(s'.w.d, s'.w.seen, s'.accepted, s'.compensations[n]) {
      assert CompensationFact(s.w.d, s.w.seen, s.accepted, s.compensations[n]);
    }
  }

  /** The parts of the invariant that do not concern single publications. */
  lemma WorkerKeeps(setup: Setup, s: System, s': System, id: Id)
    requires SysInv(setup, s) && WorkerWrite(s.w.d, s'.w.d, id) && s'.w == s.w.(d := s'.w.d)
    requires s'.publishing == s.publishing
    requires s'.confirmed == s.confirmed && s'.compensations == s.compensations && s'.accepted == s.accepted
    requires KeyedNotifications(s'.w.d.notifications) && N.QueueInv(N.Queue(s'.w.d.notifications, s'.deliveries))
    requires forall other :: ViewOk(other, View(s', other))
    ensures SysInv(setup, s')
  {
    KeyedOf(setup, s.w);
    assert KeyedPublications(s'.w.d.publications);
    hide O.Inv, ViewOk, View, N.QueueInv, Wishes, Snapshots, L.Lifecycle;
    PublishKeeps(setup, s.w, s'.w.d);
    WorkerWishes(setup, s.w.d, s'.w.d, s.publishing, id);
    WorkerSnapshots(s, s', id);
  }

  lemma OwnWorkers(workers: map<nat, P.Worker>, n: nat, w: P.Worker)
    ensures WorkersOf(workers[n := w], w.p.intent) == WorkersOf(workers, w.p.intent)[n := w]
  {
  }

  lemma OtherWorkers(workers: map<nat, P.Worker>, n: nat, w: P.Worker, other: Id)
    requires other != w.p.intent && (n in workers ==> workers[n].p.intent == w.p.intent)
    ensures WorkersOf(workers[n := w], other) == WorkersOf(workers, other)
  {
  }

  /** A claim is a step of the protocol of its intent and leaves the others alone. */
  lemma ClaimViews(s: System, n: nat, id: Id, p: Publication, leaseUntil: int, s': System)
    requires forall other :: ViewOk(other, View(s, other))
    requires id in s.w.d.publications && LeaseFree(s.w.d.publications[id].leaseUntil, s.clock)
    requires p == Claimed(s.w.d.publications[id], leaseUntil)
    requires p.intent == id && Claims(s, n, s.w.d.(publications := s.w.d.publications[id := p]), p, leaseUntil, s')
    ensures forall other :: ViewOk(other, View(s', other))
  {
    var w := P.Worker(P.Deciding, p, leaseUntil);
    OwnWorkers(s.workers, n, w);
    forall other ensures ViewOk(other, View(s', other)) {
      assert ViewOk(other, View(s, other));
      if other == id {
        hide ViewOk, WorkersOf, VersionsOf;
        ClaimedView(s, n, id, p, leaseUntil, s');
        ProtocolStep(id, View(s, id), P.Claim(n, leaseUntil), View(s', id));
      } else {
        OtherWorkers(s.workers, n, w, other);
        hide ViewOk, WorkersOf, VersionsOf;
        assert View(s', other) == View(s, other);
      }
    }
  }

  lemma ClaimedView(s: System, n: nat, id: Id, p: Publication, leaseUntil: int, s': System)
    requires id in s.w.d.publications && LeaseFree(s.w.d.publications[id].leaseUntil, s.clock)
    requires p == Claimed(s.w.d.publications[id], leaseUntil)
    requires p.intent == id && Claims(s, n, s.w.d.(publications := s.w.d.publications[id := p]), p, leaseUntil, s')
    ensures P.Next(id, View(s, id), P.Claim(n, leaseUntil), View(s', id))
    ensures PQ.KeepsWithdrawal(View(s, id), P.Claim(n, leaseUntil))
  {
    OwnWorkers(s.workers, n, P.Worker(P.Deciding, p, leaseUntil));
    assert n !in WorkersOf(s.workers, id);
    hide WorkersOf, VersionsOf;
  }

  lemma ClaimKeeps(setup: Setup, s: System, n: nat, id: Id, p: Publication, leaseUntil: int, s': System)
    requires SysInv(setup, s) && id in s.w.d.publications && LeaseFree(s.w.d.publications[id].leaseUntil, s.clock)
    requires p == Claimed(s.w.d.publications[id], leaseUntil)
    requires Claims(s, n, s.w.d.(publications := s.w.d.publications[id := p]), p, leaseUntil, s')
    ensures SysInv(setup, s')
  {
    KeyedOf(setup, s.w);
    assert p.intent == id && WorkerWrite(s.w.d, s'.w.d, id);
    hide O.Inv, ViewOk, View, N.QueueInv, Wishes, Snapshots, L.Lifecycle;
    ClaimViews(s, n, id, p, leaseUntil, s');
    WorkerKeeps(setup, s, s', id);
  }

  /** Claiming one due publication is claiming it by its intent. */
  lemma DueClaimIsClaim(d: Data, now: int, leaseUntil: int, after: map<Id, Publication>, p: Publication)
    requires KeyedPublications(d.publications) && ClaimsDue(d.publications, now, leaseUntil, 1, after, [p])
    ensures ClaimPublication(d, p.intent, now, leaseUntil) == (d.(publications := after), ClaimOk(p))
  {
    assert IsDueClaim(d.publications, now, leaseUntil, [p][0]);
    assert forall id :: ClaimedHere([p], id) <==> id == p.intent by {
      assert [p][0].intent == p.intent;
    }
    assert after == d.publications[p.intent := p];
  }

  /** What a store call of worker `n` did: its new copy, and the record and queue it left. */
  ghost predicate Called(s: System, s': System, n: nat, w': P.Worker, pub: Publication,
                         outbox: map<NotificationId, Notification>) {
    && w'.p.intent in s.w.d.publications
    && s' == s.(w := s.w.(d := s.w.d.(publications := s.w.d.publications[w'.p.intent := pub], notifications := outbox)),
                workers := s.workers[n := w'])
  }

  lemma CalledView(s: System, s': System, n: nat, w': P.Worker, pub: Publication,
                   outbox: map<NotificationId, Notification>)
    requires Called(s, s', n, w', pub, outbox)
    ensures var v := View(s, w'.p.intent);
      View(s', w'.p.intent) == v.(pub := Some(pub), workers := v.workers[n := w'], outbox := outbox)
  {
    OwnWorkers(s.workers, n, w');
    hide WorkersOf, VersionsOf;
  }

  /** A worker's renewal is the store's own operation, and a step of the protocol. */
  lemma RenewalCalls(s: System, n: nat, e: P.WorkerEvent, s': System)
    requires n in s.workers && Works(s, n, e, s') && e.Renew? && s.workers[n].p.intent in s.w.d.publications
    ensures var w := s.workers[n]; var p := s.w.d.publications[w.p.intent];
      if p.revision == w.p.revision
      then Called(s, s', n, P.Worker(if w.phase.RenewingDelete? then P.Deleting(None) else P.Putting(None), w.p,
        e.leaseUntil),
                  p.(leaseUntil := Some(e.leaseUntil)), s.w.d.notifications)
      else Called(s, s', n, P.Move(w, P.Finished), p, s.w.d.notifications)
    ensures MayCallStore(s.workers[n], e)
  {
    var w := s.workers[n];
    assert s.w.d.publications[w.p.intent := s.w.d.publications[w.p.intent]] == s.w.d.publications;
    hide View;
  }

  lemma RenewalSteps(v: P.State, n: nat, e: P.WorkerEvent, p: Publication)
    requires n in v.workers && v.pub == Some(p) && e.Renew? && MayCallStore(v.workers[n], e)
    ensures var w := v.workers[n];
      P.Works(v, n, e,
        if p.revision == w.p.revision
        then v.(pub := Some(p.(leaseUntil := Some(e.leaseUntil))),
                workers := v.workers[n := P.Worker(if w.phase.RenewingDelete? then P.Deleting(None)
                  else P.Putting(None), w.p, e.leaseUntil)],
                outbox := v.outbox)
        else v.(pub := Some(p), workers := v.workers[n := P.Move(w, P.Finished)], outbox := v.outbox))
  {
  }

  /** So is its closing write. */
  lemma ClosingCalls(s: System, n: nat, e: P.WorkerEvent, s': System)
    requires n in s.workers && Works(s, n, e, s') && e.Write? && s.workers[n].p.intent in s.w.d.publications
    ensures P.Offer(s.workers[n], e.nextAttemptAt).Some?
    ensures var w := s.workers[n]; var p := s.w.d.publications[w.p.intent];
      if p.revision == w.p.revision
      then Called(s, s', n, P.Move(w, P.Finished), Written(P.Offer(w, e.nextAttemptAt).value, w.p.revision),
                  Enqueue(s.w.d.notifications, P.Queued(w)))
      else Called(s, s', n, P.Move(w, P.Finished), p, s.w.d.notifications)
  {
    var w := s.workers[n];
    assert s.w.d.publications[w.p.intent := s.w.d.publications[w.p.intent]] == s.w.d.publications;
    assert P.Offer(w, e.nextAttemptAt).value.intent == w.p.intent;
    NothingQueued(s.w.d.notifications);
    ClosingResult(s.w.d, w, e);
    assert w.phase.Failing? ==> P.Queued(w) == [];
    hide View, StoreCall, Enqueue;
  }

  lemma ClosingSteps(v: P.State, n: nat, e: P.WorkerEvent, p: Publication)
    requires n in v.workers && v.pub == Some(p) && e.Write? && P.Offer(v.workers[n], e.nextAttemptAt).Some?
    ensures var w := v.workers[n];
      P.Works(v, n, e,
        if p.revision == w.p.revision
        then v.(pub := Some(Written(P.Offer(w, e.nextAttemptAt).value, w.p.revision)),
          workers := v.workers[n := P.Move(w, P.Finished)],
                outbox := Enqueue(v.outbox, P.Queued(w)))
        else v.(pub := Some(p), workers := v.workers[n := P.Move(w, P.Finished)], outbox := v.outbox))
  {
    hide Enqueue;
  }

  lemma ClosingResult(d: Data, w: P.Worker, e: P.WorkerEvent)
    requires e.Write? && P.Offer(w, e.nextAttemptAt).Some? && w.p.intent in d.publications
    requires P.Offer(w, e.nextAttemptAt).value.intent == w.p.intent
    ensures var offer := P.Offer(w, e.nextAttemptAt).value;
      if d.publications[w.p.intent].revision == w.p.revision
      then StoreCall(d, w, e) == (d.(publications := d.publications[w.p.intent := Written(offer, w.p.revision)],
                                     notifications := if w.phase.Failing? then d.notifications
                                       else Enqueue(d.notifications, P.Queued(w))), Done)
      else StoreCall(d, w, e) == (d, VersionConflict)
  {
    hide Enqueue, P.Offer;
  }

  lemma NothingQueued(queued: map<NotificationId, Notification>)
    ensures Enqueue(queued, []) == queued
  {
  }

  /** The worker's copy belongs to its intent, and so do the notifications it queues, none of them delivered. */
  lemma CopyBelongs(s: System, n: nat)
    requires n in s.workers && ViewOk(s.workers[n].p.intent, View(s, s.workers[n].p.intent))
    ensures var w := s.workers[n];
      && n in View(s, w.p.intent).workers && View(s, w.p.intent).workers[n] == w
      && w.p.intent in s.w.d.publications
      && forall k :: 0 <= k < |P.Queued(w)| ==>
         P.Queued(w)[k].id.intent == w.p.intent && P.Queued(w)[k].deliveredAt.None?
  {
    var w := s.workers[n];
    var v := View(s, w.p.intent);
    assert v.workers[n] == w;
    assert P.CopyOk(w.p.intent, v.accepted, w) && P.FenceOk(v, n);
    hide PQ.QueueBehind, P.Inv;
  }

  /** A record the worker wrote differs from the stored one only as a worker may change it. */
  lemma OwnedChanges(id: Id, v: P.State, n: nat, nextAttemptAt: int)
    requires P.Inv(id, v) && n in v.workers && P.Owns(v, v.workers[n]) && P.Offer(v.workers[n], nextAttemptAt).Some?
    ensures WorkerChanges(v.pub.value, Written(P.Offer(v.workers[n], nextAttemptAt).value, v.workers[n].p.revision))
  {
    assert P.OutcomeOk(v, v.workers[n]) && P.CopyOk(id, v.accepted, v.workers[n]) && P.RecordOk(id, v);
    hide P.Inv;
  }

  lemma OthersQueue(queued: map<NotificationId, Notification>, added: seq<Notification>, id: Id, other: Id)
    requires other != id && forall k :: 0 <= k < |added| ==> added[k].id.intent == id
    ensures P.SameQueued(other, queued, Enqueue(queued, added))
  {
    P.EnqueueContains(queued, added);
    hide Enqueue;
  }

  /** A store call of a worker keeps the invariant. */
  lemma CallKeeps(setup: Setup, s: System, n: nat, e: P.WorkerEvent, w': P.Worker, pub: Publication,
                  added: seq<Notification>, s': System)
    requires SysInv(setup, s) && n in s.workers && w'.p.intent == s.workers[n].p.intent
    requires Called(s, s', n, w', pub, Enqueue(s.w.d.notifications, added))
    requires WorkerChanges(s.w.d.publications[w'.p.intent], pub)
    requires forall k :: 0 <= k < |added| ==> added[k].id.intent == w'.p.intent && added[k].deliveredAt.None?
    requires ViewOk(w'.p.intent, View(s', w'.p.intent))
    ensures SysInv(setup, s')
  {
    var id := w'.p.intent;
    KeyedOf(setup, s.w) by { hide ViewOk, View, Wishes, Snapshots, N.QueueInv, History; }
    hide ViewOk, View, O.Inv, Wishes, Snapshots, L.Lifecycle, Enqueue, N.QueueInv;
    forall other ensures ViewOk(other, View(s', other)) {
      if other != id {
        assert ViewOk(other, View(s, other));
        OtherCallView(s, n, w', pub, added, s', other);
      }
    }
    N.EnqueueKeyed(s.w.d.notifications, added);
    QueueGrows(s.w.d.notifications, s.deliveries, added);
    WorkerKeeps(setup, s, s', id) by { hide SysInv; }
  }

  lemma OtherCallView(s: System, n: nat, w': P.Worker, pub: Publication, added: seq<Notification>, s': System,
                      other: Id)
    requires n in s.workers && w'.p.intent == s.workers[n].p.intent && other != w'.p.intent
    requires ViewOk(other, View(s, other))
    requires Called(s, s', n, w', pub, Enqueue(s.w.d.notifications, added))
    requires forall k :: 0 <= k < |added| ==> added[k].id.intent == w'.p.intent
    ensures ViewOk(other, View(s', other))
  {
    OthersQueue(s.w.d.notifications, added, w'.p.intent, other);
    OtherWorkers(s.workers, n, w', other);
    hide ViewOk, WorkersOf, VersionsOf, Enqueue, P.SameQueued;
    assert View(s', other) == View(s, other).(outbox := s'.w.d.notifications);
    OtherQueue(other, View(s, other), s'.w.d.notifications);
  }

  lemma QueueGrows(records: map<NotificationId, Notification>, copies: map<nat, Notification>, added: seq<Notification>)
    requires N.QueueInv(N.Queue(records, copies)) && forall k :: 0 <= k < |added| ==> added[k].deliveredAt.None?
    ensures N.QueueInv(N.Queue(Enqueue(records, added), copies))
  {
    hide N.QueueInv, Enqueue;
    N.StepKeepsQueue(N.Queue(records, copies), N.Add(added), N.Queue(Enqueue(records, added), copies));
  }

  lemma WorkKeeps(setup: Setup, s: System, n: nat, e: P.WorkerEvent, s': System)
    requires SysInv(setup, s) && n in s.workers && Works(s, n, e, s')
    ensures SysInv(setup, s')
  {
    var w := s.workers[n];
    var id := w.p.intent;
    assert ViewOk(id, View(s, id));
    hide *;
    CopyBelongs(s, n);
    if e.Renew? {
      RenewKeeps(setup, s, n, e, s');
    } else if e.Write? {
      CloseKeeps(setup, s, n, e, s');
    } else {
      QuietWorkKeeps(setup, s, n, e, s');
    }
  }

  lemma RenewKeeps(setup: Setup, s: System, n: nat, e: P.WorkerEvent, s': System)
    requires SysInv(setup, s) && n in s.workers && Works(s, n, e, s') && e.Renew?
    requires var id := s.workers[n].p.intent;
      ViewOk(id, View(s, id)) && id in s.w.d.publications && n in View(s, id).workers &&
      View(s, id).workers[n] == s.workers[n]
    ensures SysInv(setup, s')
  {
    var w := s.workers[n];
    var id, p, v := w.p.intent, s.w.d.publications[w.p.intent], View(s, w.p.intent);
    assert v.pub == Some(p);
    RenewalCalls(s, n, e, s');
    RenewalSteps(v, n, e, p);
    NothingQueued(s.w.d.notifications);
    hide SysInv, ViewOk, View, Works, Enqueue, Called, StoreCall, MayCallStore, P.Works;
    var w' := s'.workers[n];
    assert w' == (if p.revision == w.p.revision
                  then P.Worker(if w.phase.RenewingDelete? then P.Deleting(None) else P.Putting(None), w.p,
                    e.leaseUntil)
                  else P.Move(w, P.Finished)) by { CalledIs(s, s', n, w, p, e); }
    var pub := if p.revision == w.p.revision then p.(leaseUntil := Some(e.leaseUntil)) else p;
    CalledView(s, s', n, w', pub, s.w.d.notifications);
    ProtocolStep(id, v, P.Work(n, e), View(s', id)) by { StepOfWork(id, v, n, e, View(s', id)); }
    CallKeeps(setup, s, n, e, w', pub, [], s');
  }

  lemma CalledIs(s: System, s': System, n: nat, w: P.Worker, p: Publication, e: P.WorkerEvent)
    requires e.Renew?
    requires if p.revision == w.p.revision
      then Called(s, s', n, P.Worker(if w.phase.RenewingDelete? then P.Deleting(None) else P.Putting(None), w.p,
        e.leaseUntil),
                  p.(leaseUntil := Some(e.leaseUntil)), s.w.d.notifications)
      else Called(s, s', n, P.Move(w, P.Finished), p, s.w.d.notifications)
    ensures n in s'.workers
    ensures s'.workers[n] == (if p.revision == w.p.revision
                  then P.Worker(if w.phase.RenewingDelete? then P.Deleting(None) else P.Putting(None), w.p,
                    e.leaseUntil)
                  else P.Move(w, P.Finished))
  {
  }

  lemma StepOfWork(id: Id, v: P.State, n: nat, e: P.WorkerEvent, v': P.State)
    requires n in v.workers && P.Works(v, n, e, v')
    ensures P.Next(id, v, P.Work(n, e), v') && PQ.KeepsWithdrawal(v, P.Work(n, e))
  {
    hide P.Works;
  }

  lemma CloseKeeps(setup: Setup, s: System, n: nat, e: P.WorkerEvent, s': System)
    requires SysInv(setup, s) && n in s.workers && Works(s, n, e, s') && e.Write?
    requires var id := s.workers[n].p.intent;
      ViewOk(id, View(s, id)) && id in s.w.d.publications && n in View(s, id).workers &&
      View(s, id).workers[n] == s.workers[n]
    requires forall k :: 0 <= k < |P.Queued(s.workers[n])| ==>
      P.Queued(s.workers[n])[k].id.intent == s.workers[n].p.intent && P.Queued(s.workers[n])[k].deliveredAt.None?
    ensures SysInv(setup, s')
  {
    var w := s.workers[n];
    var id, p, v := w.p.intent, s.w.d.publications[w.p.intent], View(s, w.p.intent);
    assert v.pub == Some(p) && v.outbox == s.w.d.notifications && P.Inv(id, v);
    ClosingCalls(s, n, e, s');
    ClosingSteps(v, n, e, p);
    if p.revision == w.p.revision {
      OwnedChanges(id, v, n, e.nextAttemptAt);
    }
    NothingQueued(s.w.d.notifications);
    hide SysInv, ViewOk, View, Works, Enqueue, Called, StoreCall, P.Works, P.Inv, P.Offer, P.Queued;
    var w' := P.Move(w, P.Finished);
    var pub := if p.revision == w.p.revision then Written(P.Offer(w, e.nextAttemptAt).value, w.p.revision) else p;
    var added := if p.revision == w.p.revision then P.Queued(w) else [];
    CalledView(s, s', n, w', pub, Enqueue(s.w.d.notifications, added));
    ProtocolStep(id, v, P.Work(n, e), View(s', id)) by { StepOfWork(id, v, n, e, View(s', id)); }
    CallKeeps(setup, s, n, e, w', pub, added, s');
  }

  /** The other steps of a worker touch only its copy and the reference. */
  lemma QuietWorkKeeps(setup: Setup, s: System, n: nat, e: P.WorkerEvent, s': System)
    requires SysInv(setup, s) && n in s.workers && Works(s, n, e, s') && !e.Renew? && !e.Write?
    requires var id := s.workers[n].p.intent;
      ViewOk(id, View(s, id)) && id in s.w.d.publications && n in View(s, id).workers &&
      View(s, id).workers[n] == s.workers[n]
    ensures SysInv(setup, s')
  {
    QuietShape(s, n, e, s') by { hide SysInv, ViewOk; }
    hide *;
    Parts(setup, s);
    forall other ensures ViewOk(other, View(s', other)) {
      QuietViews(s, n, e, s', other);
    }
    QuietSnapshots(s, s');
    Made(setup, s');
  }

  ghost predicate QuietWork(s: System, n: nat, e: P.WorkerEvent, s': System)
    requires n in s.workers
  {
    var id := s.workers[n].p.intent;
    && n in s'.workers && id in s'.dss
    && P.Works(View(s, id), n, e, View(s, id).(dss := s'.dss[id], workers := View(s, id).workers[n := s'.workers[n]]))
    && s' == s.(dss := s.dss[id := s'.dss[id]], workers := s.workers[n := s'.workers[n]])
  }

  lemma QuietShape(s: System, n: nat, e: P.WorkerEvent, s': System)
    requires n in s.workers && n in View(s, s.workers[n].p.intent).workers && Works(s, n, e, s') && !e.Renew?
    requires !e.Write?
    ensures QuietWork(s, n, e, s') && s'.w == s.w && s'.deliveries == s.deliveries && s'.publishing == s.publishing
    ensures s'.confirmed == s.confirmed && s'.compensations == s.compensations && s'.accepted == s.accepted
  {
    hide P.Works, View;
  }

  lemma QuietSnapshots(s: System, s': System)
    requires Snapshots(s) && s'.w == s.w && s'.confirmed == s.confirmed && s'.compensations == s.compensations
    requires s'.accepted == s.accepted
    ensures Snapshots(s')
  {
    hide ConfirmedFact, CompensationFact;
  }

  lemma QuietViews(s: System, n: nat, e: P.WorkerEvent, s': System, other: Id)
    requires n in s.workers && n in View(s, s.workers[n].p.intent).workers
    requires View(s, s.workers[n].p.intent).workers[n] == s.workers[n]
    requires QuietWork(s, n, e, s') && !e.Renew? && !e.Write?
    requires ViewOk(other, View(s, other))
    ensures ViewOk(other, View(s', other))
  {
    var id, v := s.workers[n].p.intent, View(s, s.workers[n].p.intent);
    var v' := v.(dss := s'.dss[id], workers := v.workers[n := s'.workers[n]]);
    assert s'.workers[n].p.intent == id by { hide ViewOk, View; WorksKeepsIntent(v, n, e, v'); }
    if other == id {
      StepOfWork(id, v, n, e, v') by { hide View; }
      OwnWorkers(s.workers, n, s'.workers[n]);
      assert View(s', id) == v' by { hide WorkersOf, VersionsOf, ViewOk, P.Works; }
      hide ViewOk, P.Works, View;
      ProtocolStep(id, v, P.Work(n, e), v');
    } else {
      OtherWorkers(s.workers, n, s'.workers[n], other);
      hide WorkersOf, VersionsOf, ViewOk, P.Works;
      assert View(s', other) == View(s, other);
    }
  }

  lemma WorksKeepsIntent(v: P.State, n: nat, e: P.WorkerEvent, v': P.State)
    requires n in v.workers && P.Works(v, n, e, v') && !e.Renew? && !e.Write? && n in v'.workers
    ensures v'.workers[n].p.intent == v.workers[n].p.intent
  {
    hide P.PeerNotifications, P.Performs, P.Mutated;
  }

  /* ---- deliveries, reads and the clock ---- */

  lemma QueueMoveKeeps(setup: Setup, s: System, records: map<NotificationId, Notification>,
                       copies: map<nat, Notification>, s': System)
    requires SysInv(setup, s) && s' == s.(w := s.w.(d := s.w.d.(notifications := records)), deliveries := copies)
    requires records.Keys == s.w.d.notifications.Keys && N.QueueInv(N.Queue(records, copies))
    ensures SysInv(setup, s')
  {
    KeyedOf(setup, s.w);
    assert KeyedNotifications(records);
    forall id ensures ViewOk(id, View(s', id)) {
      assert ViewOk(id, View(s, id));
      assert P.SameQueued(id, s.w.d.notifications, records);
      hide ViewOk, WorkersOf, VersionsOf, P.SameQueued;
      OtherQueue(id, View(s, id), records);
      assert View(s', id) == View(s, id).(outbox := records);
    }
    hide ViewOk, View, O.Inv, N.QueueInv, L.Lifecycle;
    PublishKeeps(setup, s.w, s'.w.d);
    QueueSnapshots(s, s');
  }

  /** Snapshot facts depend only on the intents, the publications and what was read. */
  lemma QueueSnapshots(s: System, s': System)
    requires s'.w.d.intents == s.w.d.intents && s'.w.d.publications == s.w.d.publications && s'.w.seen == s.w.seen
    requires s'.confirmed == s.confirmed && s'.compensations == s.compensations && s'.accepted == s.accepted
    ensures Snapshots(s) ==> Snapshots(s')
    ensures forall setup, publishing :: Wishes(setup, s.w.d, publishing) ==> Wishes(setup, s'.w.d, publishing)
  {
    forall i | ConfirmedFact(s.w.d, s.w.seen, i) ensures ConfirmedFact(s'.w.d, s'.w.seen, i) {
    }
    forall c | CompensationFact(s.w.d, s.w.seen, s.accepted, c)
      ensures CompensationFact(s'.w.d, s'.w.seen, s'.accepted, c) {
    }
    hide ConfirmedFact, CompensationFact, Tied;
  }

  lemma TakeKeeps(setup: Setup, s: System, n: nat, digest: Digest, leaseUntil: int, copy: Notification,
                  records: map<NotificationId, Notification>, s': System)
    requires SysInv(setup, s) && n !in s.deliveries
    requires TakesDue(s.w.d.notifications, digest, s.clock, leaseUntil, 1, records, [copy])
    requires s' == s.(w := s.w.(d := s.w.d.(notifications := records)), deliveries := s.deliveries[n := copy])
    ensures SysInv(setup, s')
  {
    KeyedOf(setup, s.w);
    var q := N.Queue(s.w.d.notifications, s.deliveries);
    N.DueClaimTakes(q, digest, n, s.clock, leaseUntil, records, copy);
    N.StepKeepsQueue(q, N.Take(n, copy.id, s.clock, leaseUntil), N.Queue(records, s.deliveries[n := copy]));
    assert records.Keys == s.w.d.notifications.Keys;
    hide *;
    QueueMoveKeeps(setup, s, records, s.deliveries[n := copy], s');
  }

  lemma DeliverKeeps(setup: Setup, s: System, n: nat, delivered: bool, nextAttemptAt: int, s': System)
    requires SysInv(setup, s) && Acts(setup, s, Deliver(n, delivered, nextAttemptAt), s')
    ensures SysInv(setup, s')
  {
    hide *;
    var q, q' := N.Queue(s.w.d.notifications, s.deliveries), N.Queue(s'.w.d.notifications, s.deliveries - {n});
    DeliverShape(setup, s, n, delivered, nextAttemptAt, s');
    QueueOf(setup, s);
    N.StepKeepsQueue(q, N.Conclude(n, delivered, s.clock, nextAttemptAt), q');
    QueueMoveKeeps(setup, s, s'.w.d.notifications, s.deliveries - {n}, s');
  }

  lemma QueueOf(setup: Setup, s: System)
    requires SysInv(setup, s)
    ensures N.QueueInv(N.Queue(s.w.d.notifications, s.deliveries))
  {
    hide O.Inv, ViewOk, View, Wishes, Snapshots, N.QueueInv, History;
  }

  lemma DeliverShape(setup: Setup, s: System, n: nat, delivered: bool, nextAttemptAt: int, s': System)
    requires Acts(setup, s, Deliver(n, delivered, nextAttemptAt), s')
    ensures s' == s.(w := s.w.(d := s.w.d.(notifications := s'.w.d.notifications)), deliveries := s.deliveries - {n})
    ensures N.Moves(N.Queue(s.w.d.notifications, s.deliveries), N.Conclude(n, delivered, s.clock, nextAttemptAt),
                    N.Queue(s'.w.d.notifications, s.deliveries - {n}))
    ensures s'.w.d.notifications.Keys == s.w.d.notifications.Keys
  {
  }

  lemma TickKeeps(setup: Setup, s: System, to: int)
    requires SysInv(setup, s) && s.clock <= to
    ensures SysInv(setup, s.(clock := to))
  {
    var s' := s.(clock := to);
    forall id ensures ViewOk(id, View(s', id)) {
      assert ViewOk(id, View(s, id));
      hide ViewOk, WorkersOf, VersionsOf;
      assert View(s', id) == View(s, id).(clock := to);
      ProtocolStep(id, View(s, id), P.Tick(to), View(s', id));
    }
    QueueSnapshots(s, s');
    hide ViewOk, View, O.Inv, N.QueueInv, Wishes;
  }

  lemma SameViews(s: System, s': System)
    requires forall id :: ViewOk(id, View(s, id))
    requires s'.w.d == s.w.d && s'.dss == s.dss && s'.workers == s.workers && s'.last == s.last && s'.clock == s.clock
    requires s'.accepted == s.accepted
    ensures forall id :: ViewOk(id, View(s', id))
  {
    forall id ensures ViewOk(id, View(s', id)) {
      assert ViewOk(id, View(s, id)) && View(s', id) == View(s, id);
    }
  }

  /** A publication found confirmed still wants what it has published. */
  lemma FindKeeps(setup: Setup, s: System, i: Intent, s': System)
    requires SysInv(setup, s) && Acts(setup, s, FindConfirmed(i), s')
    ensures SysInv(setup, s')
  {
    FindShape(setup, s, i, s');
    hide *;
    Parts(setup, s);
    SameViews(s, s');
    FoundFact(s, i);
    ConfirmedGrows(s, i);
    Made(setup, s');
  }

  lemma FindShape(setup: Setup, s: System, i: Intent, s': System)
    requires Acts(setup, s, FindConfirmed(i), s')
    ensures i in s.w.seen && i.status.Accepted? && i.id in s.w.d.publications
    ensures PublishedAsAccepted(s.w.d.publications[i.id], i.version)
    ensures s' == s.(confirmed := s.confirmed + {i})
  {
    hide PublishedAsAccepted;
  }

  lemma FoundFact(s: System, i: Intent)
    requires i in s.w.seen && i.status.Accepted? && i.id in s.w.d.publications
    requires PublishedAsAccepted(s.w.d.publications[i.id], i.version)
    requires ViewOk(i.id, View(s, i.id))
    ensures ConfirmedFact(s.w.d, s.w.seen, i)
  {
    var v := View(s, i.id);
    assert v.pub == Some(s.w.d.publications[i.id]) && P.RecordOk(i.id, v) by { hide PQ.QueueBehind, P.RecordOk; }
    hide View, ViewOk, L.IsNewest;
  }

  lemma ConfirmedGrows(s: System, i: Intent)
    requires Snapshots(s) && ConfirmedFact(s.w.d, s.w.seen, i)
    ensures Snapshots(s.(confirmed := s.confirmed + {i}))
  {
    hide ConfirmedFact, CompensationFact;
  }

  lemma CompensationsGrow(s: System, n: nat, c: Compensating)
    requires Snapshots(s) && CompensationFact(s.w.d, s.w.seen, s.accepted, c)
    ensures Snapshots(s.(compensations := s.compensations[n := c]))
  {
    hide ConfirmedFact, CompensationFact;
  }

  lemma NoticeKeeps(setup: Setup, s: System, n: nat, c: Intent, s': System)
    requires SysInv(setup, s) && Acts(setup, s, NoticeActivation(n, c), s')
    ensures SysInv(setup, s')
  {
    NoticeShape(setup, s, n, c, s');
    hide *;
    Parts(setup, s);
    SameViews(s, s');
    NoticedFact(setup, s, c);
    CompensationsGrow(s, n, Noticed(c, s.w.d.publications[c.id]));
    Made(setup, s');
  }

  lemma NoticeShape(setup: Setup, s: System, n: nat, c: Intent, s': System)
    requires Acts(setup, s, NoticeActivation(n, c), s')
    ensures n !in s.compensations && c in s.w.seen && c.id in s.w.d.publications
    ensures s' == s.(compensations := s.compensations[n := Noticed(c, s.w.d.publications[c.id])])
  {
  }

  lemma NoticedFact(setup: Setup, s: System, c: Intent)
    requires O.Inv(setup.fleet, s.w) && Wishes(setup, s.w.d, s.publishing) && c in s.w.seen
    requires c.id in s.w.d.publications
    ensures CompensationFact(s.w.d, s.w.seen, s.accepted, Noticed(c, s.w.d.publications[c.id]))
  {
    KeyedOf(setup, s.w);
    var p := s.w.d.publications[c.id];
    assert Tied(s.w.d.intents, p) && p.intent == c.id;
    assert L.IsNewest(s.w.d.intents, c) ==> TiedTo(s.w.d.intents, p, c);
    hide O.Inv, Wishes, Tied, L.Lifecycle, L.IsNewest;
  }

  lemma ReadKeeps(setup: Setup, s: System, n: nat, s': System)
    requires SysInv(setup, s) && Acts(setup, s, ReadPublished(n), s')
    ensures SysInv(setup, s')
  {
    ReadShape(setup, s, n, s');
    hide *;
    Parts(setup, s);
    SameViews(s, s');
    KeyedOf(setup, s.w);
    CheckedFact(s, n);
    CompensationsGrow(s, n, s'.compensations[n]);
    Made(setup, s');
  }

  lemma ReadShape(setup: Setup, s: System, n: nat, s': System)
    requires Acts(setup, s, ReadPublished(n), s')
    ensures n in s.compensations && s.compensations[n].Noticed? && L.Editable(s.compensations[n].current.status)
    ensures (s.compensations[n].current.id, s.compensations[n].pub.publishedVersion) in s.w.d.intents
    ensures var c := s.compensations[n];
      s' == s.(compensations := s.compensations[n :=
        Checked(c.current, c.pub, s.w.d.intents[(c.current.id, c.pub.publishedVersion)])])
  {
  }

  lemma CheckedFact(s: System, n: nat)
    requires n in s.compensations && s.compensations[n].Noticed? && L.Editable(s.compensations[n].current.status)
    requires Snapshots(s) && KeyedIntents(s.w.d.intents) && History(s.w.d, s.accepted)
    requires (s.compensations[n].current.id, s.compensations[n].pub.publishedVersion) in s.w.d.intents
    ensures var c := s.compensations[n];
      CompensationFact(s.w.d, s.w.seen, s.accepted,
        Checked(c.current, c.pub, s.w.d.intents[(c.current.id, c.pub.publishedVersion)]))
  {
    var c := s.compensations[n];
    assert CompensationFact(s.w.d, s.w.seen, s.accepted, c);
    var key := (c.current.id, c.pub.publishedVersion);
    assert s.w.d.intents[key].status.Accepted? ==> key in AcceptedKeys(s.w.d);
    hide ConfirmedFact;
  }

  lemma EnableKeeps(setup: Setup, s: System)
    requires SysInv(setup, s)
    ensures SysInv(setup, s.(publishing := true))
  {
    SameViews(s, s.(publishing := true));
    QueueSnapshots(s, s.(publishing := true));
    hide ViewOk, View, O.Inv, N.QueueInv, Tied;
  }

  /* ---- the requests ---- */

  /** An activation asks only for the newest record's own version, and for Activated only once that is published. */
  lemma ActivationFits(setup: Setup, s: System, i: Intent, desired: ExternalState, s': System)
    requires SysInv(setup, s) && Acts(setup, s, RequestActivation(i, desired), s')
    ensures s.publishing && i in s.w.seen && i.id in setup.canonical
    ensures s' == s.(w := s.w.(d := Requests(s.w.d, i, P.PublicationRequest(i.id, i.version, desired, s.clock))))
    ensures L.IsNewest(s.w.d.intents, i) ==> RequestFits(s.w.d, s.accepted, i, i.version, desired)
  {
    KeyedOf(setup, s.w);
    if L.IsNewest(s.w.d.intents, i) {
      assert (i.id, i.version) in AcceptedKeys(s.w.d);
      if desired.ActivatedState? {
        assert ConfirmedFact(s.w.d, s.w.seen, i);
      }
    }
    hide O.Inv, ViewOk, View, Wishes, N.QueueInv, O.SeenOk, L.Lifecycle, Requests, CompensationFact;
  }

  lemma ActivationKeeps(setup: Setup, s: System, i: Intent, desired: ExternalState, s': System)
    requires SysInv(setup, s) && Acts(setup, s, RequestActivation(i, desired), s')
    ensures SysInv(setup, s')
  {
    hide *;
    ActivationFits(setup, s, i, desired, s');
    RequestKeeps(setup, s, i, i.version, desired, s');
  }

  /** A compensation never withdraws an intent that is still editable: what it finds published is accepted. */
  lemma CompensationAsks(setup: Setup, s: System, n: nat, s': System)
    requires SysInv(setup, s) && Acts(setup, s, Compensate(n), s')
    ensures n in s.compensations && CompensationRequest(s.compensations[n], s.clock).Some?
    ensures var c := s.compensations[n]; var request := CompensationRequest(c, s.clock).value;
      && s.publishing && c.current in s.w.seen && c.current.id in setup.canonical
      && s' == s.(w := s.w.(d := Requests(s.w.d, c.current,
         P.PublicationRequest(c.current.id, request.desiredVersion, request.desiredState, s.clock))))
      && (L.IsNewest(s.w.d.intents, c.current) ==>
         RequestFits(s.w.d, s.accepted, c.current, request.desiredVersion, request.desiredState))
  {
    CompensationShape(setup, s, n, s');
    var c := s.compensations[n];
    assert CompensationFact(s.w.d, s.w.seen, s.accepted, c) && History(s.w.d, s.accepted);
    assert s.publishing && c.current.id in setup.canonical;
    hide SysInv, Acts, CompensationRequest;
    if L.IsNewest(s.w.d.intents, c.current) {
      CompensationFits(s.w.d, s.w.seen, s.accepted, c, s.clock);
    }
    hide RequestFits, History, L.IsNewest;
  }

  lemma CompensationKeeps(setup: Setup, s: System, n: nat, s': System)
    requires SysInv(setup, s) && Acts(setup, s, Compensate(n), s')
    ensures SysInv(setup, s')
  {
    hide *;
    CompensationAsks(setup, s, n, s');
    var c := s.compensations[n];
    var request := CompensationRequest(c, s.clock).value;
    RequestKeeps(setup, s, c.current, request.desiredVersion, request.desiredState, s');
  }

  lemma CompensationShape(setup: Setup, s: System, n: nat, s': System)
    requires Acts(setup, s, Compensate(n), s')
    ensures n in s.compensations && CompensationRequest(s.compensations[n], s.clock).Some?
    ensures var c := s.compensations[n]; var request := CompensationRequest(c, s.clock).value;
      && request == P.PublicationRequest(c.current.id, request.desiredVersion, request.desiredState, s.clock)
      && s' == s.(w := s.w.(d := Requests(s.w.d, c.current, request)))
  {
    hide Requests;
  }

  lemma CompensationFits(d: Data, seen: set<Intent>, accepted: set<IntentKey>, c: Compensating, now: int)
    requires CompensationFact(d, seen, accepted, c) && L.IsNewest(d.intents, c.current)
    requires CompensationRequest(c, now).Some? && History(d, accepted)
    ensures var request := CompensationRequest(c, now).value;
      RequestFits(d, accepted, c.current, request.desiredVersion, request.desiredState)
  {
    assert c.current.status.Accepted? ==> (c.current.id, c.current.version) in AcceptedKeys(d);
  }
}
