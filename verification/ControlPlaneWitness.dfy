/** A fault-free run of the whole system: an intent is created, submitted and accepted, its publication is put to the
    DSS and confirmed, and the one subscriber gets a notification. So the guarantees of runs speak of something. */
module ControlPlaneWitness {
  import opened Domain
  import opened StoreState
  import opened ControlPlane
  import opened ControlPlaneGuarantees
  import O = Operations
  import P = PublicationProtocol

  /** The system before any publication work, with one intent and what was read of it. */
  function Prepared(intents: map<IntentKey, Intent>, seen: set<Intent>): System {
    START.(w := O.START.(d := EMPTY.(intents := intents), seen := seen), publishing := true)
  }

  function Only(i: Intent): map<IntentKey, Intent> { map[(i.id, i.version) := i] }

  lemma NobodyHolds(d: Data, id: Id)
    requires d.flights == map[]
    ensures !IntentFenced(d, id)
  {
  }

  lemma CreationMove(setup: Setup, draft: Intent)
    requires draft.version == 1 && draft.status.Draft? && draft.revision == 0
    ensures Moves(setup, Prepared(map[], {}), Service(O.NewIntent(draft)), Prepared(Only(draft), {}))
  {
    var s, s' := Prepared(map[], {}), Prepared(Only(draft), {});
    NobodyHolds(s.w.d, draft.id);
    assert CreateIntent(s.w.d, draft).0 == s'.w.d by { hide IntentFenced; }
    ServiceMove(setup, s, O.NewIntent(draft), s') by { hide CreateIntent; }
  }

  /** A service move that accepts nothing. */
  lemma ServiceMove(setup: Setup, s: System, step: O.Step, s': System)
    requires RequestsRightly(setup, s, step) && O.Next(setup.fleet, s.w, step, s'.w)
    requires s' == s.(w := s'.w, accepted := s'.accepted)
    requires s'.accepted == s.accepted + AcceptedKeys(s'.w.d)
    ensures Moves(setup, s, Service(step), s')
  {
    hide RequestsRightly, O.Next, AcceptedKeys;
  }

  lemma ReadMove(setup: Setup, i: Intent, seen: set<Intent>)
    requires !i.status.Accepted?
    ensures Moves(setup, Prepared(Only(i), seen), Service(O.ReadIntent(i)), Prepared(Only(i), seen + {i}))
  {
    var s, s' := Prepared(Only(i), seen), Prepared(Only(i), seen + {i});
    assert IsLatest(s.w.d, i);
    assert O.Next(setup.fleet, s.w, O.ReadIntent(i), s'.w) by { hide IsLatest; }
    ServiceMove(setup, s, O.ReadIntent(i), s') by { hide O.Next; }
  }

  lemma SubmissionMove(setup: Setup, draft: Intent, seen: set<Intent>)
    requires draft.version == 1 && draft.status.Draft? && draft in seen
    ensures Moves(setup, Prepared(Only(draft), seen), Service(O.Transition(draft, Submitted, None)),
                  Prepared(Only(draft.(status := Submitted, revision := draft.revision + 1)), seen))
  {
    var submitted := draft.(status := Submitted, revision := draft.revision + 1);
    var s, s' := Prepared(Only(draft), seen), Prepared(Only(submitted), seen);
    NobodyHolds(s.w.d, draft.id);
    assert CurrentIs(s.w.d, draft.id, draft.version, draft.revision);
    assert IntentWriteGuard(s.w.d, draft.id, draft.version, draft.revision).Done? by { hide IntentFenced, CurrentIs; }
    assert UpdatedIntents(Only(draft), draft.(status := Submitted), draft.revision) == Only(submitted);
    hide IntentWriteGuard, UpdatedIntents;
    assert UpdateIntent(s.w.d, draft.(status := Submitted), draft.revision).0 == s'.w.d;
    hide UpdateIntent;
    ServiceMove(setup, s, O.Transition(draft, Submitted, None), s');
  }

  /** The system while the publication of an accepted intent is worked on. */
  function Publishing(i: Intent, seen: set<Intent>, pub: Publication): System {
    Prepared(Only(i), seen).(w := O.START.(d := EMPTY.(intents := Only(i), publications := map[i.id := pub]),
      seen := seen),
                            accepted := {(i.id, i.version)})
  }

  lemma AcceptanceMove(setup: Setup, submitted: Intent, seen: set<Intent>)
    requires submitted.version == 1 && submitted.status.Submitted? && submitted in seen
    requires submitted.id in setup.canonical
    ensures var accepted := submitted.(status := Accepted, revision := submitted.revision + 1);
      var request := P.PublicationRequest(submitted.id, 1, AcceptedState, 0);
      Moves(setup, Prepared(Only(submitted), seen), Service(O.Accept(submitted, Some(request))),
            Publishing(accepted, seen, Requested(None, request)))
  {
    var accepted := submitted.(status := Accepted, revision := submitted.revision + 1);
    var request := P.PublicationRequest(submitted.id, 1, AcceptedState, 0);
    var s, s' := Prepared(Only(submitted), seen), Publishing(accepted, seen, Requested(None, request));
    NobodyHolds(s.w.d, submitted.id);
    assert CurrentIs(s.w.d, submitted.id, 1, submitted.revision);
    assert IntentWriteGuard(s.w.d, submitted.id, 1, submitted.revision).Done? by { hide IntentFenced, CurrentIs; }
    assert AcceptedIntents(Only(submitted), submitted.(status := Accepted), submitted.revision) == Only(accepted);
    hide IntentWriteGuard, AcceptedIntents;
    var step := AcceptIntent(s.w.d, submitted.(status := Accepted), submitted.revision);
    assert step == (s.w.d.(intents := Only(accepted)), Done);
    hide AcceptIntent, Requested;
    assert O.WithRequest(step, Some(request)).0 == s'.w.d;
    assert AcceptedKeys(s'.w.d) == {(accepted.id, 1)};
    ServiceMove(setup, s, O.Accept(submitted, Some(request)), s') by { hide AcceptedKeys, O.WithRequest; }
  }

  /** The system with one worker on that publication. */
  function Working(i: Intent, seen: set<Intent>, pub: Publication, w: P.Worker, dss: map<Id, P.Reference>,
                   queue: map<NotificationId, Notification>): System {
    Publishing(i, seen, pub).(
      w := O.START.(d := EMPTY.(intents := Only(i), publications := map[i.id := pub], notifications := queue),
        seen := seen),
      workers := map[1 := w], last := map[i.id := 1], dss := dss)
  }

  lemma ClaimMove(setup: Setup, i: Intent, seen: set<Intent>, pub: Publication, leaseUntil: int)
    requires i.status.Accepted? && pub.intent == i.id && pub.leaseUntil.None?
    ensures var p := Claimed(pub, leaseUntil);
      Moves(setup, Publishing(i, seen, pub), Claim(1, i.id, leaseUntil),
        Working(i, seen, p, P.Worker(P.Deciding, p, leaseUntil), map[], map[]))
  {
    var p := Claimed(pub, leaseUntil);
    var s, s' := Publishing(i, seen, pub), Working(i, seen, p, P.Worker(P.Deciding, p, leaseUntil), map[], map[]);
    var r := ClaimPublication(s.w.d, i.id, 0, leaseUntil);
    assert s.w.d.publications[i.id := p] == map[i.id := p];
    assert r == (s.w.d.(publications := map[i.id := p]), ClaimOk(p));
    hide ClaimPublication;
    assert Claims(s, 1, r.0, p, leaseUntil, s');
    OneAccepted(s'.w.d, i);
    hide Claims, AcceptedKeys;
    assert s'.(accepted := s.accepted) == s';
  }

  lemma OneAccepted(d: Data, i: Intent)
    requires d.intents == Only(i) && i.status.Accepted?
    ensures AcceptedKeys(d) == {(i.id, i.version)}
  {
  }

  function ViewOf(i: Intent, pub: Publication, w: P.Worker, dss: P.Reference,
                  queue: map<NotificationId, Notification>): P.State {
    P.State(Some(pub), dss, map[1 := w], 1, 0, {i.version}, queue)
  }

  lemma WorkingView(i: Intent, seen: set<Intent>, pub: Publication, w: P.Worker, dss: map<Id, P.Reference>,
                    queue: map<NotificationId, Notification>)
    requires w.p.intent == i.id
    ensures View(Working(i, seen, pub, w, dss, queue), i.id) ==
      ViewOf(i, pub, w, if i.id in dss then dss[i.id] else P.Absent, queue)
  {
  }

  /** A step of the worker that touches only its copy and the reference. */
  lemma QuietMove(setup: Setup, i: Intent, seen: set<Intent>, pub: Publication, w: P.Worker, dss: map<Id, P.Reference>,
                  e: P.WorkerEvent, w': P.Worker, ref: P.Reference)
    requires i.status.Accepted? && w.p.intent == i.id && !e.Renew? && !e.Write?
    requires P.Works(ViewOf(i, pub, w, if i.id in dss then dss[i.id] else P.Absent, map[]), 1, e,
      ViewOf(i, pub, w', ref, map[]))
    ensures Moves(setup, Working(i, seen, pub, w, dss, map[]), Work(1, e),
      Working(i, seen, pub, w', dss[i.id := ref], map[]))
  {
    var s, s' := Working(i, seen, pub, w, dss, map[]), Working(i, seen, pub, w', dss[i.id := ref], map[]);
    WorkingView(i, seen, pub, w, dss, map[]);
    hide View, P.Works;
    assert map[1 := w][1 := w'] == map[1 := w'];
    assert Works(s, 1, e, s');
    OneAccepted(s'.w.d, i);
    hide Works, AcceptedKeys;
    assert s'.(accepted := s.accepted) == s';
  }

  /** A store call of the worker. */
  lemma CallMove(setup: Setup, i: Intent, seen: set<Intent>, pub: Publication, w: P.Worker, dss: map<Id, P.Reference>,
                 e: P.WorkerEvent, pub': Publication, queue: map<NotificationId, Notification>)
    requires i.status.Accepted? && (e.Renew? || e.Write?) && MayCallStore(w, e)
    requires var d := Working(i, seen, pub, w, dss, map[]).w.d;
      StoreCall(d, w, e) == (d.(publications := map[i.id := pub'], notifications := queue), Done)
    ensures Moves(setup, Working(i, seen, pub, w, dss, map[]), Work(1, e),
      Working(i, seen, pub', AfterStoreCall(w, e, Done), dss, queue))
  {
    var s, s' := Working(i, seen, pub, w, dss, map[]), Working(i, seen, pub', AfterStoreCall(w, e, Done), dss, queue);
    hide StoreCall, MayCallStore, AfterStoreCall;
    assert map[1 := w][1 := AfterStoreCall(w, e, Done)] == map[1 := AfterStoreCall(w, e, Done)];
    assert Works(s, 1, e, s');
    OneAccepted(s'.w.d, i);
    hide Works, AcceptedKeys;
    assert s'.(accepted := s.accepted) == s';
  }

  lemma RenewalDone(i: Intent, seen: set<Intent>, p: Publication, w: P.Worker, dss: map<Id, P.Reference>,
                    leaseUntil: int)
    requires w.p == p && p.intent == i.id && w.phase.RenewingPut?
    ensures var d := Working(i, seen, p, w, dss, map[]).w.d;
      && StoreCall(d, w, P.Renew(leaseUntil)) ==
         (d.(publications := map[i.id := p.(leaseUntil := Some(leaseUntil))], notifications := map[]), Done)
      && MayCallStore(w, P.Renew(leaseUntil))
  {
    assert map[i.id := p][i.id := p.(leaseUntil := Some(leaseUntil))] ==
        map[i.id := p.(leaseUntil := Some(leaseUntil))];
  }

  lemma ClosingDone(i: Intent, seen: set<Intent>, pub: Publication, w: P.Worker, dss: map<Id, P.Reference>)
    requires w.p.intent == i.id && w.phase.Confirming? && pub.revision == w.p.revision
    ensures var d := Working(i, seen, pub, w, dss, map[]).w.d;
      && StoreCall(d, w, P.Write(0)) ==
         (d.(publications := map[i.id := Written(w.p, w.p.revision)], notifications := Enqueue(map[], w.phase.added)),
           Done)
      && MayCallStore(w, P.Write(0))
  {
    hide Enqueue;
    var d := Working(i, seen, pub, w, dss, map[]).w.d;
    var closed := Written(w.p, w.p.revision);
    assert map[i.id := pub][i.id := closed] == map[i.id := closed];
    assert UpdatePublication(d, w.p, w.p.revision) == (d.(publications := map[i.id := closed]), Done);
    hide UpdatePublication;
    assert ConfirmPublication(d, w.p, w.p.revision, w.phase.added) ==
           (d.(publications := map[i.id := closed], notifications := Enqueue(map[], w.phase.added)), Done);
  }

  lemma Extend(setup: Setup, run: seq<System>, m: Move, s': System)
    requires IsRun(setup, run) && Moves(setup, run[|run| - 1], m, s')
    ensures IsRun(setup, run + [s'])
  {
    hide Moves;
    assert Follows(setup, run[|run| - 1], s');
    hide Follows;
  }

  lemma EnablingMove(setup: Setup)
    ensures Moves(setup, START, EnablePublishing, Prepared(map[], {}))
  {
    var s' := Prepared(map[], {});
    assert s' == START.(publishing := true);
    assert AcceptedKeys(s'.w.d) == {};
  }

  /** Creation, submission and acceptance, with the request for publication. */
  lemma AcceptedRun(setup: Setup, draft: Intent) returns (run: seq<System>, accepted: Intent, seen: set<Intent>)
    requires draft.version == 1 && draft.status.Draft? && draft.revision == 0 && draft.id in setup.canonical
    ensures IsRun(setup, run) && accepted == draft.(status := Accepted, revision := 2)
    ensures run[|run| - 1] == Publishing(accepted, seen,
      Requested(None, P.PublicationRequest(draft.id, 1, AcceptedState, 0)))
  {
    hide *;
    var submitted := draft.(status := Submitted, revision := 1);
    accepted := draft.(status := Accepted, revision := 2);
    seen := {} + {draft} + {submitted};
    run := [START];
    StartsRun(setup);
    EnablingMove(setup);
    Extend(setup, run, EnablePublishing, Prepared(map[], {}));
    run := run + [Prepared(map[], {})];
    CreationMove(setup, draft);
    Extend(setup, run, Service(O.NewIntent(draft)), Prepared(Only(draft), {}));
    run := run + [Prepared(Only(draft), {})];
    ReadMove(setup, draft, {});
    Extend(setup, run, Service(O.ReadIntent(draft)), Prepared(Only(draft), {} + {draft}));
    run := run + [Prepared(Only(draft), {} + {draft})];
    SubmissionMove(setup, draft, {} + {draft});
    Extend(setup, run, Service(O.Transition(draft, Submitted, None)), Prepared(Only(submitted), {} + {draft}));
    run := run + [Prepared(Only(submitted), {} + {draft})];
    ReadMove(setup, submitted, {} + {draft});
    Extend(setup, run, Service(O.ReadIntent(submitted)), Prepared(Only(submitted), seen));
    run := run + [Prepared(Only(submitted), seen)];
    AcceptanceMove(setup, submitted, seen);
    var request := P.PublicationRequest(draft.id, 1, AcceptedState, 0);
    Extend(setup, run, Service(O.Accept(submitted, Some(request))),
      Publishing(accepted, seen, Requested(None, request)));
    run := run + [Publishing(accepted, seen, Requested(None, request))];
  }

  lemma StartsRun(setup: Setup)
    ensures IsRun(setup, [START])
  {
  }

  function Asked(id: Id): Publication { Requested(None, P.PublicationRequest(id, 1, AcceptedState, 0)) }

  function Processing(id: Id): Publication { Claimed(Asked(id), 30) }

  function FirstReceipt(ovn: nat, url: Id): P.Receipt { P.Receipt(1, ovn, NO_ID, [url]) }

  function FirstNotice(id: Id, ovn: nat, url: Id, payload: Id): seq<Notification> {
    [P.PeerNotification(Processing(id), FirstReceipt(ovn, url), false, url, payload, 0)]
  }

  function Confirmation(id: Id, ovn: nat, url: Id): Publication {
    P.ConfirmedCopy(Processing(id), FirstReceipt(ovn, url))
  }

  lemma Checks(i: Intent)
    ensures var p := Processing(i.id);
      P.Works(ViewOf(i, p, P.Worker(P.Deciding, p, 30), P.Absent, map[]), 1, P.Check(true, false),
              ViewOf(i, p, P.Worker(P.RenewingPut, p, 30), P.Absent, map[]))
  {
    var p := Processing(i.id);
    assert map[1 := P.Worker(P.Deciding, p, 30)][1 := P.Worker(P.RenewingPut, p, 30)] ==
        map[1 := P.Worker(P.RenewingPut, p, 30)];
  }

  lemma Puts(i: Intent, ovn: nat, url: Id)
    requires ovn != NO_OVN
    ensures var p := Processing(i.id); var renewed := p.(leaseUntil := Some(40));
      P.Works(ViewOf(i, renewed, P.Worker(P.Putting(None), p, 40), P.Absent, map[]), 1, P.Process(ovn, NO_ID, [url]),
              ViewOf(i, renewed, P.Worker(P.Putting(Some(P.Performed(FirstReceipt(ovn, url)))), p, 40),
                P.Held(ovn, 1, AcceptedState, 1), map[]))
  {
    var p := Processing(i.id);
    var w, w' := P.Worker(P.Putting(None), p, 40),
        P.Worker(P.Putting(Some(P.Performed(FirstReceipt(ovn, url)))), p, 40);
    assert map[1 := w][1 := w'] == map[1 := w'];
  }

  lemma Confirms(i: Intent, ovn: nat, url: Id, payload: Id)
    ensures var p := Processing(i.id); var renewed := p.(leaseUntil := Some(40));
      P.Works(ViewOf(i, renewed, P.Worker(P.Putting(Some(P.Performed(FirstReceipt(ovn, url)))), p, 40),
        P.Held(ovn, 1, AcceptedState, 1), map[]), 1,
              P.Return(false, false, Some([payload])),
              ViewOf(i, renewed, P.Worker(P.Confirming(FirstReceipt(ovn, url), FirstNotice(i.id, ovn, url, payload)),
                Confirmation(i.id, ovn, url), 40),
                     P.Held(ovn, 1, AcceptedState, 1), map[]))
  {
    var p := Processing(i.id);
    var w := P.Worker(P.Putting(Some(P.Performed(FirstReceipt(ovn, url)))), p, 40);
    var w' := P.Worker(P.Confirming(FirstReceipt(ovn, url), FirstNotice(i.id, ovn, url, payload)),
        Confirmation(i.id, ovn, url), 40);
    assert P.PeerNotifications(p, FirstReceipt(ovn, url), false, Some([payload]), 0).value ==
        FirstNotice(i.id, ovn, url, payload);
    hide P.PeerNotifications, P.PeerNotification, P.ConfirmedCopy, Processing;
    assert P.ReturnedPut(w, w.phase.answer, P.Return(false, false, Some([payload])), 0) == w';
    hide P.ReturnedPut, FirstNotice, Confirmation;
    assert map[1 := w][1 := w'] == map[1 := w'];
  }

  lemma ProcessingFacts(id: Id, ovn: nat, url: Id)
    ensures Asked(id).intent == id && Asked(id).leaseUntil.None? && Processing(id).intent == id
    ensures Confirmation(id, ovn, url).intent == id && Confirmation(id, ovn, url).revision == Processing(id).revision
  {
  }

  /** The worker's copy before and after its store calls. */
  lemma CallPhases(id: Id, ovn: nat, url: Id, payload: Id)
    ensures var p, c := Processing(id), Confirmation(id, ovn, url);
      && AfterStoreCall(P.Worker(P.RenewingPut, p, 30), P.Renew(40), Done) == P.Worker(P.Putting(None), p, 40)
      && AfterStoreCall(P.Worker(P.Confirming(FirstReceipt(ovn, url), FirstNotice(id, ovn, url, payload)), c, 40),
         P.Write(0), Done)
         == P.Worker(P.Finished, c, 40)
  {
    hide Processing, Confirmation, FirstNotice, FirstReceipt;
  }

  lemma ClosedDelivers(i: Intent, seen: set<Intent>, ovn: nat, url: Id, payload: Id, dss: map<Id, P.Reference>)
    requires ovn != NO_OVN && i.id in dss && dss[i.id] == P.Held(ovn, 1, AcceptedState, 1)
    ensures var c := Confirmation(i.id, ovn, url);
      Delivers(Working(i, seen, Written(c, c.revision), P.Worker(P.Finished, c, 40), dss,
        Enqueue(map[], FirstNotice(i.id, ovn, url, payload))),
               i.id, ovn, url)
  {
    var added := FirstNotice(i.id, ovn, url, payload);
    assert added[0].id == Change(i.id, 1, url) && added[0].deliveredAt.None?;
    P.EnqueueContains(map[], added);
    hide Enqueue, FirstNotice;
  }

  /** The publication of an accepted version is confirmed without a fault, and its subscriber gets a notification. */
  lemma ConfirmationReachable(setup: Setup, draft: Intent, ovn: nat, url: Id, payload: Id) returns (run: seq<System>)
    requires draft.version == 1 && draft.status.Draft? && draft.revision == 0 && draft.id in setup.canonical
    requires ovn != NO_OVN
    ensures IsRun(setup, run) && Delivers(run[|run| - 1], draft.id, ovn, url)
  {
    hide *;
    var i, seen;
    run, i, seen := AcceptedRun(setup, draft);
    AskedIs(draft.id);
    run := ClaimedRun(setup, run, i, seen);
    run := PutRun(setup, run, i, seen, ovn, url);
    run := ClosedRun(setup, run, i, seen, ovn, url, payload);
  }

  lemma AskedIs(id: Id)
    ensures Asked(id) == Requested(None, P.PublicationRequest(id, 1, AcceptedState, 0))
  {
  }

  /** The claim, the check and the renewal. */
  lemma ClaimedRun(setup: Setup, before: seq<System>, i: Intent, seen: set<Intent>) returns (run: seq<System>)
    requires IsRun(setup, before) && before[|before| - 1] == Publishing(i, seen, Asked(i.id)) && i.status.Accepted?
    ensures IsRun(setup, run)
    ensures var p := Processing(i.id);
      run[|run| - 1] == Working(i, seen, p.(leaseUntil := Some(40)), P.Worker(P.Putting(None), p, 40),
        map[i.id := P.Absent], map[])
  {
    hide *;
    var id := i.id;
    var p := Processing(id);
    var w1, w2 := P.Worker(P.Deciding, p, 30), P.Worker(P.RenewingPut, p, 30);
    var absent: map<Id, P.Reference> := map[][id := P.Absent];
    ProcessingFacts(id, 0, 0);
    ClaimedIs(id);
    ClaimMove(setup, i, seen, Asked(id), 30);
    Extend(setup, before, Claim(1, id, 30), Working(i, seen, p, w1, map[], map[]));
    run := before + [Working(i, seen, p, w1, map[], map[])];
    Checks(i);
    QuietMove(setup, i, seen, p, w1, map[], P.Check(true, false), w2, P.Absent);
    Extend(setup, run, Work(1, P.Check(true, false)), Working(i, seen, p, w2, absent, map[]));
    run := run + [Working(i, seen, p, w2, absent, map[])];
    RenewalDone(i, seen, p, w2, absent, 40);
    CallPhases(id, 0, 0, 0);
    CallMove(setup, i, seen, p, w2, absent, P.Renew(40), p.(leaseUntil := Some(40)), map[]);
    var s' := Working(i, seen, p.(leaseUntil := Some(40)), P.Worker(P.Putting(None), p, 40), absent, map[]);
    Extend(setup, run, Work(1, P.Renew(40)), s');
    run := run + [s'];
  }

  lemma ClaimedIs(id: Id)
    ensures Processing(id) == Claimed(Asked(id), 30)
  {
  }

  lemma PutRun(setup: Setup, before: seq<System>, i: Intent, seen: set<Intent>, ovn: nat, url: Id)
      returns (run: seq<System>)
    requires IsRun(setup, before) && i.status.Accepted? && ovn != NO_OVN
    requires var p := Processing(i.id);
      before[|before| - 1] == Working(i, seen, p.(leaseUntil := Some(40)), P.Worker(P.Putting(None), p, 40),
        map[i.id := P.Absent], map[])
    ensures IsRun(setup, run)
    ensures var p := Processing(i.id);
      run[|run| - 1] == Working(i, seen, p.(leaseUntil := Some(40)),
        P.Worker(P.Putting(Some(P.Performed(FirstReceipt(ovn, url)))), p, 40),
                                map[i.id := P.Held(ovn, 1, AcceptedState, 1)], map[])
  {
    hide *;
    var p := Processing(i.id);
    var w, w' := P.Worker(P.Putting(None), p, 40),
        P.Worker(P.Putting(Some(P.Performed(FirstReceipt(ovn, url)))), p, 40);
    var absent: map<Id, P.Reference> := map[i.id := P.Absent];
    var held := P.Held(ovn, 1, AcceptedState, 1);
    ProcessingFacts(i.id, ovn, url);
    Puts(i, ovn, url);
    QuietMove(setup, i, seen, p.(leaseUntil := Some(40)), w, absent, P.Process(ovn, NO_ID, [url]), w', held);
    assert absent[i.id := held] == map[i.id := held];
    var s' := Working(i, seen, p.(leaseUntil := Some(40)), w', map[i.id := held], map[]);
    Extend(setup, before, Work(1, P.Process(ovn, NO_ID, [url])), s');
    run := before + [s'];
  }

  /** The answer and the closing write. */
  lemma ClosedRun(setup: Setup, before: seq<System>, i: Intent, seen: set<Intent>, ovn: nat, url: Id, payload: Id)
      returns (run: seq<System>)
    requires IsRun(setup, before) && i.status.Accepted? && ovn != NO_OVN
    requires var p := Processing(i.id);
      before[|before| - 1] == Working(i, seen, p.(leaseUntil := Some(40)),
        P.Worker(P.Putting(Some(P.Performed(FirstReceipt(ovn, url)))), p, 40),
                                      map[i.id := P.Held(ovn, 1, AcceptedState, 1)], map[])
    ensures IsRun(setup, run) && Delivers(run[|run| - 1], i.id, ovn, url)
  {
    hide *;
    var p, c, added := Processing(i.id), Confirmation(i.id, ovn, url), FirstNotice(i.id, ovn, url, payload);
    var held := P.Held(ovn, 1, AcceptedState, 1);
    var dss: map<Id, P.Reference> := map[i.id := held];
    var w, w' := P.Worker(P.Putting(Some(P.Performed(FirstReceipt(ovn, url)))), p, 40),
        P.Worker(P.Confirming(FirstReceipt(ovn, url), added), c, 40);
    var e := P.Return(false, false, Some([payload]));
    ProcessingFacts(i.id, ovn, url);
    Confirms(i, ovn, url, payload);
    QuietMove(setup, i, seen, p.(leaseUntil := Some(40)), w, dss, e, w', held);
    assert dss[i.id := held] == dss;
    Extend(setup, before, Work(1, e), Working(i, seen, p.(leaseUntil := Some(40)), w', dss, map[]));
    run := before + [Working(i, seen, p.(leaseUntil := Some(40)), w', dss, map[])];
    ClosingDone(i, seen, p.(leaseUntil := Some(40)), w', dss);
    CallPhases(i.id, ovn, url, payload);
    CallMove(setup, i, seen, p.(leaseUntil := Some(40)), w', dss, P.Write(0), Written(c, c.revision),
      Enqueue(map[], added));
    var s' := Working(i, seen, Written(c, c.revision), P.Worker(P.Finished, c, 40), dss, Enqueue(map[], added));
    Extend(setup, run, Work(1, P.Write(0)), s');
    run := run + [s'];
    ClosedDelivers(i, seen, ovn, url, payload, dss);
  }

  /** Confirmed at the DSS, served to peers, and an undelivered notification for the subscriber. */
  ghost predicate Delivers(s: System, id: Id, ovn: nat, url: Id) {
    && id in s.w.d.publications && s.w.d.publications[id].syncStatus.Confirmed?
    && id in s.dss && s.dss[id] == P.Held(ovn, 1, AcceptedState, 1)
    && P.Served(StoredPublication(s.w.d, id), 1) == Some(1)
    && Change(id, 1, url) in s.w.d.notifications && s.w.d.notifications[Change(id, 1, url)].deliveredAt.None?
  }
}
