/** What every run of the whole system guarantees about published versions, leases and withdrawals. */
module ControlPlaneGuarantees {
  import opened Domain
  import opened StoreState
  import opened IntentShifts
  import opened ControlPlane
  import opened ControlPlaneInvariant
  import L = IntentLifecycle
  import O = Operations
  import P = PublicationProtocol
  import PQ = PublicationQueue
  import N = NotificationOutbox
  import ServiceMoves

  /* ---- every move and every run ---- */

  lemma ClaimMoveKeeps(setup: Setup, s: System, n: nat, id: Id, leaseUntil: int, s': System)
    requires SysInv(setup, s) && Acts(setup, s, Claim(n, id, leaseUntil), s')
    ensures SysInv(setup, s')
  {
    ClaimShape(setup, s, n, id, leaseUntil, s');
    hide *;
    ClaimKeeps(setup, s, n, id, ClaimPublication(s.w.d, id, s.clock, leaseUntil).1.publication, leaseUntil, s');
  }

  lemma ClaimShape(setup: Setup, s: System, n: nat, id: Id, leaseUntil: int, s': System)
    requires Acts(setup, s, Claim(n, id, leaseUntil), s')
    ensures id in s.w.d.publications && LeaseFree(s.w.d.publications[id].leaseUntil, s.clock)
    ensures var r := ClaimPublication(s.w.d, id, s.clock, leaseUntil);
      && r.1 == ClaimOk(Claimed(s.w.d.publications[id], leaseUntil))
      && Claims(s, n, s.w.d.(publications := s.w.d.publications[id := r.1.publication]), r.1.publication, leaseUntil,
         s')
  {
    hide Claims;
  }

  lemma ClaimDueKeeps(setup: Setup, s: System, n: nat, leaseUntil: int, s': System)
    requires SysInv(setup, s) && Acts(setup, s, ClaimDue(n, leaseUntil), s')
    ensures SysInv(setup, s')
  {
    hide *;
    var p := DueClaim(setup, s, n, leaseUntil, s');
    KeyedHere(setup, s);
    DueClaimIsClaim(s.w.d, s.clock, leaseUntil, s'.w.d.publications, p);
    ClaimResult(s.w.d, p.intent, s.clock, leaseUntil, s'.w.d.publications, p);
    ClaimKeeps(setup, s, n, p.intent, p, leaseUntil, s');
  }

  lemma DueClaim(setup: Setup, s: System, n: nat, leaseUntil: int, s': System) returns (p: Publication)
    requires Acts(setup, s, ClaimDue(n, leaseUntil), s')
    ensures ClaimsDue(s.w.d.publications, s.clock, leaseUntil, 1, s'.w.d.publications, [p])
    ensures Claims(s, n, s.w.d.(publications := s'.w.d.publications), p, leaseUntil, s')
  {
    hide ClaimsDue, Claims;
    p :| ClaimsDue(s.w.d.publications, s.clock, leaseUntil, 1, s'.w.d.publications, [p])
         && Claims(s, n, s.w.d.(publications := s'.w.d.publications), p, leaseUntil, s');
  }

  lemma KeyedHere(setup: Setup, s: System)
    requires SysInv(setup, s)
    ensures KeyedPublications(s.w.d.publications)
  {
    assert O.Inv(setup.fleet, s.w) by { hide O.Inv, ViewOk, View, Wishes, Snapshots, N.QueueInv, History; }
    hide SysInv, O.Inv;
    KeyedOf(setup, s.w);
  }

  lemma ClaimResult(d: Data, id: Id, now: int, leaseUntil: int, publications: map<Id, Publication>, p: Publication)
    requires ClaimPublication(d, id, now, leaseUntil) == (d.(publications := publications), ClaimOk(p))
    ensures id in d.publications && LeaseFree(d.publications[id].leaseUntil, now)
    ensures p == Claimed(d.publications[id], leaseUntil)
    ensures publications == d.publications[id := p]
  {
  }

  lemma TakeMoveKeeps(setup: Setup, s: System, n: nat, digest: Digest, leaseUntil: int, s': System)
    requires SysInv(setup, s) && Acts(setup, s, Take(n, digest, leaseUntil), s')
    ensures SysInv(setup, s')
  {
    hide SysInv, TakesDue;
    var copy :| TakesDue(s.w.d.notifications, digest, s.clock, leaseUntil, 1, s'.w.d.notifications, [copy])
                && s' == s.(w := s.w.(d := s.w.d.(notifications := s'.w.d.notifications)),
                   deliveries := s.deliveries[n := copy]);
    TakeKeeps(setup, s, n, digest, leaseUntil, copy, s'.w.d.notifications, s');
  }

  lemma WorkMoveKeeps(setup: Setup, s: System, n: nat, e: P.WorkerEvent, s': System)
    requires SysInv(setup, s) && Acts(setup, s, Work(n, e), s')
    ensures SysInv(setup, s')
  {
    hide SysInv, Works;
    WorkKeeps(setup, s, n, e, s');
  }

  lemma TickMoveKeeps(setup: Setup, s: System, to: int, s': System)
    requires SysInv(setup, s) && Acts(setup, s, Tick(to), s')
    ensures SysInv(setup, s')
  {
    hide SysInv;
    TickKeeps(setup, s, to);
  }

  lemma EnableMoveKeeps(setup: Setup, s: System, s': System)
    requires SysInv(setup, s) && Acts(setup, s, EnablePublishing, s')
    ensures SysInv(setup, s')
  {
    hide SysInv;
    EnableKeeps(setup, s);
  }

  lemma ActKeeps(setup: Setup, s: System, m: Move, s': System)
    requires SysInv(setup, s) && Acts(setup, s, m, s') && !m.Service?
    ensures SysInv(setup, s')
  {
    hide *;
    match m
    case Claim(n, id, leaseUntil) => ClaimMoveKeeps(setup, s, n, id, leaseUntil, s');
    case ClaimDue(n, leaseUntil) => ClaimDueKeeps(setup, s, n, leaseUntil, s');
    case Take(n, digest, leaseUntil) => TakeMoveKeeps(setup, s, n, digest, leaseUntil, s');
    case FindConfirmed(i) => FindKeeps(setup, s, i, s');
    case RequestActivation(i, desired) => ActivationKeeps(setup, s, i, desired, s');
    case NoticeActivation(n, c) => NoticeKeeps(setup, s, n, c, s');
    case ReadPublished(n) => ReadKeeps(setup, s, n, s');
    case Compensate(n) => CompensationKeeps(setup, s, n, s');
    case Deliver(n, delivered, nextAttemptAt) => DeliverKeeps(setup, s, n, delivered, nextAttemptAt, s');
    case EnablePublishing => EnableMoveKeeps(setup, s, s');
    case Work(n, e) => WorkMoveKeeps(setup, s, n, e, s');
    case Tick(to) => TickMoveKeeps(setup, s, to, s');
  }

  lemma OtherMovesKeepIntents(setup: Setup, s: System, m: Move, s': System)
    requires Acts(setup, s, m, s') && !m.Service?
    ensures s'.w.d.intents == s.w.d.intents && s'.accepted == s.accepted
  {
    hide *;
    if m.Work? {
      WorkOf(setup, s, m, s');
      WorkKeepsIntents(s, m.worker, m.event, s');
    } else if m.Claim? {
      ClaimShape(setup, s, m.worker, m.intent, m.leaseUntil, s');
      ClaimsKeepIntents(s, m.worker, s');
    } else if m.ClaimDue? {
      var p := DueClaim(setup, s, m.worker, m.leaseUntil, s');
      ClaimsKeepIntents(s, m.worker, s');
    } else if m.RequestActivation? || m.Compensate? {
      AskingMovesKeepIntents(setup, s, m, s');
    } else {
      QuietMovesKeepIntents(setup, s, m, s');
    }
  }

  lemma ClaimsKeepIntents(s: System, n: nat, s': System)
    requires exists publications, p, leaseUntil :: Claims(s, n, s.w.d.(publications := publications), p, leaseUntil, s')
    ensures s'.w.d.intents == s.w.d.intents && s'.accepted == s.accepted && s'.w.d.notifications == s.w.d.notifications
  {
  }

  lemma AskingMovesKeepIntents(setup: Setup, s: System, m: Move, s': System)
    requires Acts(setup, s, m, s') && (m.RequestActivation? || m.Compensate?)
    ensures s'.w.d.intents == s.w.d.intents && s'.accepted == s.accepted && s'.w.d.notifications == s.w.d.notifications
  {
    hide *;
    if m.Compensate? {
      CompensationShape(setup, s, m.caller, s');
      var c := s.compensations[m.caller];
      RequestsOnly(s.w.d, c.current, CompensationRequest(c, s.clock).value);
    } else {
      ActivationShape(setup, s, m.snapshot, m.desired, s');
      RequestsOnly(s.w.d, m.snapshot, P.PublicationRequest(m.snapshot.id, m.snapshot.version, m.desired, s.clock));
    }
  }

  lemma ActivationShape(setup: Setup, s: System, i: Intent, desired: ExternalState, s': System)
    requires Acts(setup, s, RequestActivation(i, desired), s')
    ensures s' == s.(w := s.w.(d := Requests(s.w.d, i, P.PublicationRequest(i.id, i.version, desired, s.clock))))
  {
    hide Requests, PublishedAsAccepted;
  }

  /** A request writes one publication and nothing else. */
  lemma RequestsOnly(d: Data, c: Intent, request: Publication)
    ensures Requests(d, c, request) == d || Requests(d, c, request) == d.(publications :=
      d.publications[request.intent := Requested(StoredPublication(d, request.intent), request)])
  {
    hide NoIntent, CurrentIs, Requested;
  }

  lemma QuietMovesKeepIntents(setup: Setup, s: System, m: Move, s': System)
    requires Acts(setup, s, m, s')
    requires m.EnablePublishing? || m.FindConfirmed? || m.NoticeActivation? || m.ReadPublished? || m.Take? ||
      m.Deliver? || m.Tick?
    ensures s'.w.d.intents == s.w.d.intents && s'.accepted == s.accepted && s'.w.d.publications == s.w.d.publications
  {
    hide *;
    if m.Take? {
      TakeQuiet(setup, s, m.worker, m.digest, m.leaseUntil, s');
    } else if m.Deliver? {
      DeliveryQuiet(setup, s, m.worker, m.delivered, m.nextAttemptAt, s');
    } else {
      StillWorld(setup, s, m, s');
    }
  }

  lemma StillWorld(setup: Setup, s: System, m: Move, s': System)
    requires Acts(setup, s, m, s')
    requires m.EnablePublishing? || m.FindConfirmed? || m.NoticeActivation? || m.ReadPublished? || m.Tick?
    ensures s'.w == s.w && s'.accepted == s.accepted
  {
    hide *;
    match m
    case EnablePublishing => EnabledStill(setup, s, s');
    case Tick(to) => TickedStill(setup, s, to, s');
    case FindConfirmed(i) => FoundStill(setup, s, i, s');
    case NoticeActivation(n, c) => NoticedStill(setup, s, n, c, s');
    case ReadPublished(n) => ReadStill(setup, s, n, s');
  }

  lemma EnabledStill(setup: Setup, s: System, s': System)
    requires Acts(setup, s, EnablePublishing, s')
    ensures s'.w == s.w && s'.accepted == s.accepted
  {
  }

  lemma TickedStill(setup: Setup, s: System, to: int, s': System)
    requires Acts(setup, s, Tick(to), s')
    ensures s'.w == s.w && s'.accepted == s.accepted
  {
  }

  lemma FoundStill(setup: Setup, s: System, i: Intent, s': System)
    requires Acts(setup, s, FindConfirmed(i), s')
    ensures s'.w == s.w && s'.accepted == s.accepted
  {
  }

  lemma NoticedStill(setup: Setup, s: System, n: nat, c: Intent, s': System)
    requires Acts(setup, s, NoticeActivation(n, c), s')
    ensures s'.w == s.w && s'.accepted == s.accepted
  {
  }

  lemma ReadStill(setup: Setup, s: System, n: nat, s': System)
    requires Acts(setup, s, ReadPublished(n), s')
    ensures s'.w == s.w && s'.accepted == s.accepted
  {
  }

  lemma TakeQuiet(setup: Setup, s: System, n: nat, digest: Digest, leaseUntil: int, s': System)
    requires Acts(setup, s, Take(n, digest, leaseUntil), s')
    ensures s'.w.d.intents == s.w.d.intents && s'.accepted == s.accepted && s'.w.d.publications == s.w.d.publications
  {
    hide TakesDue;
  }

  lemma DeliveryQuiet(setup: Setup, s: System, n: nat, delivered: bool, nextAttemptAt: int, s': System)
    requires Acts(setup, s, Deliver(n, delivered, nextAttemptAt), s')
    ensures s'.w.d.intents == s.w.d.intents && s'.accepted == s.accepted && s'.w.d.publications == s.w.d.publications
  {
    hide N.Reported;
  }

  lemma WorkKeepsIntents(s: System, n: nat, e: P.WorkerEvent, s': System)
    requires n in s.workers && Works(s, n, e, s')
    ensures s'.w.d.intents == s.w.d.intents && s'.accepted == s.accepted
  {
    hide P.Works, View, P.Offer, P.Queued, Enqueue, StoreCall, AfterStoreCall, MayCallStore;
    StoreCallKeepsIntents(s.w.d, s.workers[n], e);
  }

  lemma StoreCallKeepsIntents(d: Data, w: P.Worker, e: P.WorkerEvent)
    ensures StoreCall(d, w, e).0.intents == d.intents
  {
    hide P.Offer, P.Queued, UpdatePublication, ConfirmPublication;
    match e
    case Renew(leaseUntil) =>
    case Write(nextAttemptAt) =>
      if P.Offer(w, nextAttemptAt).Some? {
        PublicationWritesKeepIntents(d, P.Offer(w, nextAttemptAt).value, w.p.revision, P.Queued(w));
      }
    case _ =>
  }

  lemma PublicationWritesKeepIntents(d: Data, p: Publication, expected: int, added: seq<Notification>)
    ensures UpdatePublication(d, p, expected).0.intents == d.intents
    ensures ConfirmPublication(d, p, expected, added).0.intents == d.intents
  {
    hide Enqueue, Written;
  }

  lemma NothingToRemember(setup: Setup, s: System, s': System)
    requires SysInv(setup, s) && s'.w.d.intents == s.w.d.intents
    ensures s.accepted + AcceptedKeys(s'.w.d) == s.accepted
  {
    assert History(s.w.d, s.accepted);
    assert AcceptedKeys(s'.w.d) == AcceptedKeys(s.w.d);
    hide SysInv;
  }

  lemma MoveKeeps(setup: Setup, s: System, m: Move, s': System)
    requires SysInv(setup, s) && Moves(setup, s, m, s')
    ensures SysInv(setup, s')
  {
    if m.Service? {
      assert RequestsRightly(setup, s, m.step) && O.Next(setup.fleet, s.w, m.step, s'.w) &&
          s' == ServiceMoves.Remembering(s.(w := s'.w)) by {
        hide SysInv, O.Next, RequestsRightly;
      }
      hide *;
      ServiceMoves.ServiceKeeps(setup, s, m.step, s'.w);
    } else {
      var core := s'.(accepted := s.accepted);
      hide SysInv, Acts;
      ActKeeps(setup, s, m, core);
      OtherMovesKeepIntents(setup, s, m, core);
      NothingToRemember(setup, s, s');
    }
  }

  ghost predicate Follows(setup: Setup, s: System, s': System) { exists m :: Moves(setup, s, m, s') }

  ghost predicate IsRun(setup: Setup, run: seq<System>) {
    |run| > 0 && run[0] == START && forall k :: 0 <= k < |run| - 1 ==> Follows(setup, run[k], run[k + 1])
  }

  lemma RunStarts(setup: Setup, run: seq<System>)
    requires IsRun(setup, run)
    ensures run[0] == START
  {
    hide Follows;
  }

  lemma FollowsAt(setup: Setup, run: seq<System>, k: nat)
    requires IsRun(setup, run) && k + 1 < |run|
    ensures Follows(setup, run[k], run[k + 1])
  {
    hide Follows;
  }

  lemma FollowsKeeps(setup: Setup, s: System, s': System)
    requires SysInv(setup, s) && Follows(setup, s, s')
    ensures SysInv(setup, s')
  {
    hide SysInv, Moves;
    var m :| Moves(setup, s, m, s');
    MoveKeeps(setup, s, m, s');
  }

  lemma {:induction false} RunKeepsInv(setup: Setup, run: seq<System>, k: nat)
    requires IsRun(setup, run) && k < |run|
    ensures SysInv(setup, run[k])
  {
    hide *;
    if k == 0 {
      StartInv(setup);
      RunStarts(setup, run);
    } else {
      RunKeepsInv(setup, run, k - 1);
      FollowsAt(setup, run, k - 1);
      FollowsKeeps(setup, run[k - 1], run[k]);
    }
  }

  lemma ViewAt(setup: Setup, s: System, id: Id)
    requires SysInv(setup, s)
    ensures ViewOk(id, View(s, id))
  {
    hide O.Inv, ViewOk, View, Wishes, Snapshots, N.QueueInv, History;
  }

  /* ---- published versions ---- */

  ghost predicate StoredAcceptedAt(s: System, id: Id, version: int) {
    (id, version) in s.w.d.intents && s.w.d.intents[(id, version)].status.Accepted?
  }

  /** A remembered version was stored as accepted in some state of the run. */
  lemma {:induction false} RememberedWasAccepted(setup: Setup, run: seq<System>, k: nat, id: Id, version: int)
    requires IsRun(setup, run) && k < |run| && (id, version) in run[k].accepted
    ensures exists j :: 0 <= j <= k && StoredAcceptedAt(run[j], id, version)
  {
    if k == 0 {
      RunStarts(setup, run);
    } else {
      FollowsAt(setup, run, k - 1);
      hide IsRun;
      if (id, version) in run[k - 1].accepted {
        hide Follows;
        RememberedWasAccepted(setup, run, k - 1, id, version) by { }
      } else {
        hide Acts;
        assert StoredAcceptedAt(run[k], id, version);
      }
    }
  }

  /** Whatever version of an intent is served to peers or held by the DSS, some earlier state of the store had it as
      accepted; it was never only a draft. */
  lemma ServedOnceAccepted(setup: Setup, run: seq<System>, k: nat, id: Id, dssVersion: int)
    requires IsRun(setup, run) && k < |run|
    ensures var served := P.Served(StoredPublication(run[k].w.d, id), dssVersion);
      served.Some? ==> exists j :: 0 <= j <= k && StoredAcceptedAt(run[j], id, served.value)
    ensures id in run[k].dss && run[k].dss[id].Held? ==>
      exists j :: 0 <= j <= k && StoredAcceptedAt(run[j], id, run[k].dss[id].intentVersion)
  {
    RunKeepsInv(setup, run, k);
    ViewAt(setup, run[k], id);
    var v := View(run[k], id);
    VersionsServed(id, v, dssVersion);
    hide IsRun, SysInv, ViewOk;
    var served := P.Served(v.pub, dssVersion);
    if served.Some? {
      RememberedWasAccepted(setup, run, k, id, served.value);
    }
    if v.dss.Held? {
      RememberedWasAccepted(setup, run, k, id, v.dss.intentVersion);
    }
  }

  lemma VersionsServed(id: Id, v: P.State, dssVersion: int)
    requires ViewOk(id, v)
    ensures P.Served(v.pub, dssVersion).Some? ==> P.Served(v.pub, dssVersion).value in v.accepted
    ensures v.dss.Held? ==> v.dss.intentVersion in v.accepted
  {
    assert P.RecordOk(id, v) && P.DssAccepted(v.dss, v.accepted);
    hide PQ.QueueBehind;
  }

  /** For the system with its real requests: Confirmed describes exactly what the DSS holds and what is wanted,
      Withdrawn means that the DSS holds nothing. */
  lemma PublicationMatchesDss(setup: Setup, run: seq<System>, k: nat, id: Id)
    requires IsRun(setup, run) && k < |run| && id in run[k].w.d.publications
    ensures var p, dss := run[k].w.d.publications[id], View(run[k], id).dss;
      && (p.syncStatus.Confirmed? ==> P.ConfirmedOk(p, dss)) && (p.syncStatus.Withdrawn? ==> P.WithdrawnOk(p, dss))
  {
    RunKeepsInv(setup, run, k);
    ViewAt(setup, run[k], id);
    hide IsRun, SysInv;
    assert P.RecordOk(id, View(run[k], id));
  }

  /** No two workers ever hold unexpired leases on one intent. */
  lemma LeasesDisjoint(setup: Setup, run: seq<System>, k: nat, m: nat, n: nat)
    requires IsRun(setup, run) && k < |run| && m in run[k].workers && n in run[k].workers
    requires run[k].workers[m].p.intent == run[k].workers[n].p.intent
    requires !run[k].workers[m].phase.Finished? && run[k].clock < run[k].workers[m].lease
    requires !run[k].workers[n].phase.Finished? && run[k].clock < run[k].workers[n].lease
    ensures m == n
  {
    hide *;
    RunKeepsInv(setup, run, k);
    var s := run[k];
    var v := View(s, s.workers[m].p.intent);
    ViewAt(setup, s, s.workers[m].p.intent);
    ViewWorker(s, s.workers[m].p.intent, m);
    ViewWorker(s, s.workers[m].p.intent, n);
    Fenced(s.workers[m].p.intent, v, m);
    Fenced(s.workers[m].p.intent, v, n);
    FencesMeet(v, m, n);
  }

  lemma ViewWorker(s: System, id: Id, n: nat)
    requires n in s.workers && s.workers[n].p.intent == id
    ensures View(s, id).clock == s.clock && n in View(s, id).workers && View(s, id).workers[n] == s.workers[n]
  {
  }

  lemma Fenced(id: Id, v: P.State, n: nat)
    requires ViewOk(id, v) && n in v.workers
    ensures P.FenceOk(v, n)
  {
    hide PQ.QueueBehind, P.FenceOk;
  }

  lemma FencesMeet(v: P.State, m: nat, n: nat)
    requires m in v.workers && n in v.workers && P.FenceOk(v, m) && P.FenceOk(v, n)
    requires !v.workers[m].phase.Finished? && v.clock < v.workers[m].lease
    requires !v.workers[n].phase.Finished? && v.clock < v.workers[n].lease
    ensures m == n
  {
  }

  /* ---- what a move does to one publication ---- */

  /** The publication is left alone, or asked for a state that does not take a wanted withdrawal back. */
  ghost predicate AskedRightly(id: Id, now: int, before: Option<Publication>, after: Option<Publication>) {
    after == before || exists version, desired :: AsksFor(id, now, before, after, version, desired)
  }

  ghost predicate AsksFor(id: Id, now: int, before: Option<Publication>, after: Option<Publication>, version: int,
                          desired: ExternalState) {
    && after == Some(Requested(before, P.PublicationRequest(id, version, desired, now)))
    && (!desired.WithdrawnState? ==> !PQ.IsWithdrawn(before))
  }

  lemma RequestAsks(setup: Setup, s: System, c: Intent, version: int, desired: ExternalState, d': Data, id: Id)
    requires SysInv(setup, s) && c in s.w.seen
    requires d' == Requests(s.w.d, c, P.PublicationRequest(c.id, version, desired, s.clock))
    requires L.IsNewest(s.w.d.intents, c) ==> RequestFits(s.w.d, s.accepted, c, version, desired)
    ensures AskedRightly(id, s.clock, StoredPublication(s.w.d, id), StoredPublication(d', id))
  {
    KeyedOf(setup, s.w);
    var d := s.w.d;
    assert Wishes(setup, d, s.publishing);
    hide SysInv, L.Lifecycle, O.SeenOk;
    if d' != d {
      RequestMeansCurrent(d, s.w.seen, c, P.PublicationRequest(c.id, version, desired, s.clock));
      hide Requests;
      if id == c.id {
        if id in d.publications { assert Tied(d.intents, d.publications[id]) &&
          TiedTo(d.intents, d.publications[id], c); }
        hide L.IsNewest, Tied, Wishes;
        assert AsksFor(id, s.clock, StoredPublication(d, id), StoredPublication(d', id), version, desired);
      }
    }
  }

  lemma ServiceAsks(setup: Setup, s: System, step: O.Step, w': O.World, id: Id)
    requires SysInv(setup, s) && RequestsRightly(setup, s, step) && O.Next(setup.fleet, s.w, step, w')
    ensures AskedRightly(id, s.clock, StoredPublication(s.w.d, id), StoredPublication(w'.d, id))
  {
    ServiceMoves.StepEffect(setup, s, step, w') by { hide SysInv, O.Next, RequestsRightly; }
    KeyedOf(setup, s.w);
    assert Wishes(setup, s.w.d, s.publishing);
    hide SysInv, O.Next, RequestsRightly, L.Lifecycle, O.SeenOk;
    EffectAsks(setup, s.publishing, s.clock, s.w.d, w'.d, id);
  }

  lemma EffectAsks(setup: Setup, publishing: bool, now: int, d: Data, d': Data, id: Id)
    requires ServiceMoves.ServiceEffect(setup, publishing, now, d, d') && Wishes(setup, d, publishing)
    requires KeyedIntents(d.intents) && KeyedPublications(d.publications)
    ensures AskedRightly(id, now, StoredPublication(d, id), StoredPublication(d', id))
  {
    hide IntentShift, Tied, KeyedIntents;
    if StoredPublication(d', id) != StoredPublication(d, id) {
      var before, after :| ServiceMoves.ShiftEffect(setup, publishing, now, d, d', before, after);
      var desired :| ServiceMoves.Asked(d, d', after, desired, now);
      assert after.id == id;
      if id in d.publications {
        assert Tied(d.intents, d.publications[id]);
        AcceptanceMayRequest(d.intents, d'.intents, before.value, after, d.publications[id]);
      }
      assert AsksFor(id, now, StoredPublication(d, id), StoredPublication(d', id), after.version, desired);
    }
  }

  /** The publication of `id` after a move that is neither a claim nor a worker's step. */
  lemma OtherMovesAsk(setup: Setup, s: System, m: Move, s': System, id: Id)
    requires SysInv(setup, s) && Acts(setup, s, m, s') && !m.Work? && !m.Claim? && !m.ClaimDue?
    ensures AskedRightly(id, s.clock, StoredPublication(s.w.d, id), StoredPublication(s'.w.d, id))
  {
    hide *;
    match m
    case Service(step) => ServiceActs(setup, s, step, s'); ServiceAsks(setup, s, step, s'.w, id);
    case RequestActivation(i, desired) => ActivationMoveAsks(setup, s, i, desired, s', id);
    case Compensate(n) => CompensationMoveAsks(setup, s, n, s', id);
    case _ =>
      QuietMovesKeepIntents(setup, s, m, s');
      SamePublications(s.w.d, s'.w.d, id);
      Untouched(id, s.clock, StoredPublication(s.w.d, id));
  }

  lemma ServiceActs(setup: Setup, s: System, step: O.Step, s': System)
    requires Acts(setup, s, Service(step), s')
    ensures RequestsRightly(setup, s, step) && O.Next(setup.fleet, s.w, step, s'.w)
  {
    hide RequestsRightly, O.Next;
  }

  lemma ActivationMoveAsks(setup: Setup, s: System, i: Intent, desired: ExternalState, s': System, id: Id)
    requires SysInv(setup, s) && Acts(setup, s, RequestActivation(i, desired), s')
    ensures AskedRightly(id, s.clock, StoredPublication(s.w.d, id), StoredPublication(s'.w.d, id))
  {
    hide SysInv, Requests, AskedRightly, PublishedAsAccepted;
    ActivationFits(setup, s, i, desired, s');
    RequestAsks(setup, s, i, i.version, desired, s'.w.d, id);
  }

  lemma CompensationMoveAsks(setup: Setup, s: System, n: nat, s': System, id: Id)
    requires SysInv(setup, s) && Acts(setup, s, Compensate(n), s')
    ensures AskedRightly(id, s.clock, StoredPublication(s.w.d, id), StoredPublication(s'.w.d, id))
  {
    hide SysInv, Requests, AskedRightly, CompensationRequest;
    CompensationAsks(setup, s, n, s');
    var request := CompensationRequest(s.compensations[n], s.clock).value;
    RequestAsks(setup, s, s.compensations[n].current, request.desiredVersion, request.desiredState, s'.w.d, id);
  }

  lemma SamePublications(d: Data, d': Data, id: Id)
    requires d'.publications == d.publications
    ensures StoredPublication(d', id) == StoredPublication(d, id)
  {
  }

  lemma Untouched(id: Id, now: int, pub: Option<Publication>)
    ensures AskedRightly(id, now, pub, pub)
  {
  }

  /** After a claim the publication is being processed; the wish is as before. */
  lemma ClaimsProcess(setup: Setup, s: System, m: Move, s': System, id: Id)
    requires SysInv(setup, s) && Acts(setup, s, m, s') && (m.Claim? || m.ClaimDue?)
    ensures ProcessedOrSame(StoredPublication(s.w.d, id), StoredPublication(s'.w.d, id))
  {
    hide *;
    if m.Claim? {
      ClaimShape(setup, s, m.worker, m.intent, m.leaseUntil, s');
      ClaimedProcess(s, m.worker, m.intent, ClaimPublication(s.w.d, m.intent, s.clock, m.leaseUntil).1.publication,
        m.leaseUntil, s', id);
    } else {
      var p := DueClaim(setup, s, m.worker, m.leaseUntil, s');
      KeyedHere(setup, s);
      DueClaimIsClaim(s.w.d, s.clock, m.leaseUntil, s'.w.d.publications, p);
      ClaimResult(s.w.d, p.intent, s.clock, m.leaseUntil, s'.w.d.publications, p);
      ClaimedProcess(s, m.worker, p.intent, p, m.leaseUntil, s', id);
    }
  }

  predicate ProcessedOrSame(before: Option<Publication>, after: Option<Publication>) {
    after == before || (before.Some? && after.Some? && WorkerChanges(before.value, after.value) && !P.Closed(after))
  }

  lemma ClaimedProcess(s: System, n: nat, own: Id, p: Publication, leaseUntil: int, s': System, id: Id)
    requires own in s.w.d.publications && p == Claimed(s.w.d.publications[own], leaseUntil)
    requires Claims(s, n, s.w.d.(publications := s.w.d.publications[own := p]), p, leaseUntil, s')
    ensures ProcessedOrSame(StoredPublication(s.w.d, id), StoredPublication(s'.w.d, id))
  {
  }

  /** A worker's step is one of its intent's protocol; other publications stay. */
  lemma WorkIsStep(setup: Setup, s: System, n: nat, e: P.WorkerEvent, s': System, id: Id)
    requires SysInv(setup, s) && n in s.workers && Works(s, n, e, s')
    ensures s.workers[n].p.intent != id ==> StoredPublication(s'.w.d, id) == StoredPublication(s.w.d, id)
    ensures s.workers[n].p.intent == id ==>
      n in View(s, id).workers && View(s, id).workers[n] == s.workers[n] && P.Works(View(s, id), n, e, View(s', id))
    ensures s.workers[n].p.intent == id ==>
      id in s.w.d.publications && id in s'.w.d.publications &&
      WorkerChanges(s.w.d.publications[id], s'.w.d.publications[id])
  {
    var w := s.workers[n];
    var own := w.p.intent;
    ViewAt(setup, s, own);
    CopyBelongs(s, n) by { hide SysInv, Works, ViewOk, View; }
    KeyedHere(setup, s) by { hide Works; }
    hide SysInv;
    if e.Renew? {
      hide ViewOk;
      RenewalView(s, n, e, s');
    } else if e.Write? {
      ClosingView(s, n, e, s');
    } else {
      hide ViewOk;
      QuietView(s, n, e, s');
    }
  }

  lemma RenewalView(s: System, n: nat, e: P.WorkerEvent, s': System)
    requires n in s.workers && Works(s, n, e, s') && e.Renew? && s.workers[n].p.intent in s.w.d.publications
    requires var id := s.workers[n].p.intent; n in View(s, id).workers && View(s, id).workers[n] == s.workers[n]
    ensures var id := s.workers[n].p.intent;
      P.Works(View(s, id), n, e, View(s', id)) && id in s'.w.d.publications &&
      WorkerChanges(s.w.d.publications[id], s'.w.d.publications[id])
    ensures forall id :: id != s.workers[n].p.intent ==> StoredPublication(s'.w.d, id) == StoredPublication(s.w.d, id)
    ensures s'.w.d.notifications == s.w.d.notifications
  {
    var w := s.workers[n];
    var id, p, v := w.p.intent, s.w.d.publications[w.p.intent], View(s, w.p.intent);
    assert v.pub == Some(p) && v.outbox == s.w.d.notifications;
    RenewalCalls(s, n, e, s');
    RenewalSteps(v, n, e, p);
    hide Works, StoreCall, MayCallStore, P.Works, View;
    CalledIs(s, s', n, w, p, e);
    var pub := if p.revision == w.p.revision then p.(leaseUntil := Some(e.leaseUntil)) else p;
    CalledView(s, s', n, s'.workers[n], pub, s.w.d.notifications);
  }

  lemma ClosingView(s: System, n: nat, e: P.WorkerEvent, s': System)
    requires n in s.workers && Works(s, n, e, s') && e.Write? && s.workers[n].p.intent in s.w.d.publications
    requires var id := s.workers[n].p.intent;
      ViewOk(id, View(s, id)) && n in View(s, id).workers && View(s, id).workers[n] == s.workers[n]
    ensures var id := s.workers[n].p.intent;
      P.Works(View(s, id), n, e, View(s', id)) && id in s'.w.d.publications &&
      WorkerChanges(s.w.d.publications[id], s'.w.d.publications[id])
    ensures forall id :: id != s.workers[n].p.intent ==> StoredPublication(s'.w.d, id) == StoredPublication(s.w.d, id)
    ensures s'.w.d.notifications == s.w.d.notifications ||
      s'.w.d.notifications == Enqueue(s.w.d.notifications, P.Queued(s.workers[n]))
  {
    hide *;
    var w := s.workers[n];
    var id, p, v := w.p.intent, s.w.d.publications[w.p.intent], View(s, w.p.intent);
    ViewFacts(s, id);
    ClosingCalls(s, n, e, s');
    ClosingSteps(v, n, e, p);
    var w' := P.Move(w, P.Finished);
    MovedKeeps(w);
    if p.revision == w.p.revision {
      OwnsIt(v, w, p);
      OwnedChanges(id, v, n, e.nextAttemptAt);
      var pub, outbox := Written(P.Offer(w, e.nextAttemptAt).value, w.p.revision),
          Enqueue(s.w.d.notifications, P.Queued(w));
      CalledView(s, s', n, w', pub, outbox);
      CalledMeans(s, s', n, w', pub, outbox);
    } else {
      CalledView(s, s', n, w', p, s.w.d.notifications);
      CalledMeans(s, s', n, w', p, s.w.d.notifications);
      NoWorkerChange(p);
    }
  }

  lemma MovedKeeps(w: P.Worker)
    ensures P.Move(w, P.Finished).p == w.p
  {
  }

  lemma NoWorkerChange(p: Publication)
    ensures WorkerChanges(p, p)
  {
  }

  lemma OwnsIt(v: P.State, w: P.Worker, p: Publication)
    requires v.pub == Some(p) && p.revision == w.p.revision
    ensures P.Owns(v, w)
  {
  }

  lemma ViewFacts(s: System, id: Id)
    requires ViewOk(id, View(s, id)) && id in s.w.d.publications
    ensures View(s, id).pub == Some(s.w.d.publications[id]) && View(s, id).outbox == s.w.d.notifications
    ensures P.Inv(id, View(s, id))
  {
    hide P.Inv, PQ.QueueBehind;
  }

  lemma CalledMeans(s: System, s': System, n: nat, w': P.Worker, pub: Publication,
                    outbox: map<NotificationId, Notification>)
    requires Called(s, s', n, w', pub, outbox)
    ensures w'.p.intent in s'.w.d.publications && s'.w.d.publications[w'.p.intent] == pub
    ensures s'.w.d.notifications == outbox
    ensures forall id :: id != w'.p.intent ==> StoredPublication(s'.w.d, id) == StoredPublication(s.w.d, id)
  {
  }

  lemma QuietView(s: System, n: nat, e: P.WorkerEvent, s': System)
    requires n in s.workers && Works(s, n, e, s') && !e.Renew? && !e.Write?
    requires s.workers[n].p.intent in s.w.d.publications
    requires var id := s.workers[n].p.intent; n in View(s, id).workers && View(s, id).workers[n] == s.workers[n]
    ensures var id := s.workers[n].p.intent; P.Works(View(s, id), n, e, View(s', id))
    ensures s'.w.d == s.w.d
  {
    var id := s.workers[n].p.intent;
    var v := View(s, id);
    var v' := v.(dss := s'.dss[id], workers := v.workers[n := s'.workers[n]]);
    WorksKeepsIntent(v, n, e, v') by { hide View; }
    OwnWorkers(s.workers, n, s'.workers[n]);
    hide WorkersOf, VersionsOf, P.Works;
    assert View(s', id) == v';
  }

  /* ---- final withdrawals ---- */

  /** A wanted withdrawal stays wanted. */
  lemma WithdrawalStays(setup: Setup, s: System, m: Move, s': System, id: Id)
    requires SysInv(setup, s) && Moves(setup, s, m, s') && PQ.IsWithdrawn(StoredPublication(s.w.d, id))
    ensures PQ.IsWithdrawn(StoredPublication(s'.w.d, id))
  {
    var core := s'.(accepted := s.accepted);
    hide SysInv, Acts, AskedRightly;
    if m.Claim? || m.ClaimDue? {
      ClaimsProcess(setup, s, m, core, id);
    } else if m.Work? {
      WorkOf(setup, s, m, core);
      WorkIsStep(setup, s, m.worker, m.event, core, id) by { hide Works; }
      hide Works, View, P.Works;
    } else {
      OtherMovesAsk(setup, s, m, core, id);
      AskedStaysWithdrawn(id, s.clock, StoredPublication(s.w.d, id), StoredPublication(core.w.d, id));
    }
  }

  lemma WorkOf(setup: Setup, s: System, m: Move, s': System)
    requires m.Work? && Acts(setup, s, m, s')
    ensures m.worker in s.workers && Works(s, m.worker, m.event, s')
  {
    hide Works;
  }

  lemma AskedStaysWithdrawn(id: Id, now: int, before: Option<Publication>, after: Option<Publication>)
    requires AskedRightly(id, now, before, after) && PQ.IsWithdrawn(before)
    ensures PQ.IsWithdrawn(after)
  {
  }

  /** Once a withdrawal is requested for an intent, no other state is ever requested again. */
  lemma {:induction false} WithdrawalIsFinal(setup: Setup, run: seq<System>, i: nat, j: nat, id: Id)
    requires IsRun(setup, run) && i <= j < |run| && PQ.IsWithdrawn(StoredPublication(run[i].w.d, id))
    ensures PQ.IsWithdrawn(StoredPublication(run[j].w.d, id))
  {
    hide *;
    if i < j {
      WithdrawalIsFinal(setup, run, i, j - 1, id);
      RunKeepsInv(setup, run, j - 1);
      FollowsAt(setup, run, j - 1);
      FollowsWithdrawn(setup, run[j - 1], run[j], id);
    }
  }

  lemma FollowsWithdrawn(setup: Setup, s: System, s': System, id: Id)
    requires SysInv(setup, s) && Follows(setup, s, s') && PQ.IsWithdrawn(StoredPublication(s.w.d, id))
    ensures PQ.IsWithdrawn(StoredPublication(s'.w.d, id))
  {
    hide SysInv, Moves;
    var m :| Moves(setup, s, m, s');
    WithdrawalStays(setup, s, m, s', id);
  }
}
