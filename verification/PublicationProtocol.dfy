/** The reconciler that keeps one intent's DSS reference in step with its desired state. The DSS is a second
    machine, any number of workers run the reconciliation program on their own copies, and answers get lost.
    Assumed of the DSS: a mutation takes effect, if at all, before its call returns and while the worker's lease
    runs, and nobody else mutates this reference. */
module PublicationProtocol {
  import opened Domain
  import opened StoreState

  /** What the DSS holds for the intent. `intentVersion` is the version whose volumes were last put. */
  datatype Reference = Absent | Held(ovn: nat, version: int, state: ExternalState, intentVersion: int)

  datatype Receipt = Receipt(version: int, ovn: nat, subscription: Id, subscribers: seq<Id>)

  /** How the DSS handled a mutation. */
  datatype Answer = Performed(receipt: Receipt) | Missing | Conflicted

  datatype Phase =
    | Deciding
    | RenewingDelete
    | Deleting(answer: Option<Answer>)
    | DeleteConflict
    | RecoveringSubscribers
    | ConfirmingWithdrawal(used: Receipt, added: seq<Notification>)
    | RenewingPut
    | Putting(answer: Option<Answer>)
    | PutFailed(permanent: bool)
    | Confirming(used: Receipt, added: seq<Notification>)
    | Failing(permanent: bool)
    | Finished

  /** A worker's own copy of the publication it claimed, and how long its lease runs. */
  datatype Worker = Worker(phase: Phase, p: Publication, lease: int)

  /** `last` names the worker of the latest claim; `accepted` collects the intent versions accepted so far. */
  datatype State = State(
    pub: Option<Publication>, dss: Reference, workers: map<nat, Worker>, last: nat, clock: int, accepted: set<int>,
    outbox: map<NotificationId, Notification>)

  datatype WorkerEvent =
    | ReadReference(answered: bool, subscription: Id)
    | Check(clear: bool, permanent: bool)
    | Renew(leaseUntil: int)
    | Process(ovn: nat, subscription: Id, subscribers: seq<Id>)
    | Return(lost: bool, permanent: bool, payloads: Option<seq<Id>>)
    | Recover(found: Option<seq<Id>>, payloads: Option<seq<Id>>)
    | Write(nextAttemptAt: int)

  datatype Step =
    | Tick(to: int)
    | AcceptVersion(version: int)
    | Request(version: int, desired: ExternalState)
    | Claim(worker: nat, leaseUntil: int)
    | Work(worker: nat, event: WorkerEvent)
    | OutboxMoves(outbox: map<NotificationId, Notification>)

  const INITIAL := State(None, Absent, map[], 0, 0, {}, map[])

  const NO_RECEIPT := Receipt(0, NO_OVN, NO_ID, [])

  function PublicationRequest(intent: Id, version: int, desired: ExternalState, now: int): Publication {
    Publication(intent, 0, version, 0, desired, Unconfirmed, SyncPending, 0, NO_OVN, NO_ID, 0, now, None)
  }

  function ApplyReceipt(p: Publication, r: Receipt): Publication {
    p.(dssVersion := r.version, ovn := r.ovn, subscription := r.subscription)
  }

  function ReferenceReceipt(held: Reference, subscription: Id): Receipt
    requires held.Held?
  {
    Receipt(held.version, held.ovn, subscription, [])
  }

  /** buildPeerNotifications: one per subscriber; None when a payload cannot be built. */
  function PeerNotifications(p: Publication, r: Receipt, deleted: bool, payloads: Option<seq<Id>>,
                             now: int): Option<seq<Notification>> {
    if payloads.None? || |payloads.value| != |r.subscribers| then None
    else Some(seq(|r.subscribers|, k requires 0 <= k < |r.subscribers| =>
      PeerNotification(p, r, deleted, r.subscribers[k], payloads.value[k], now)))
  }

  function PeerIdentity(p: Publication, r: Receipt, deleted: bool, url: Id): NotificationId {
    if deleted then Deletion(p.intent, p.desiredVersion, url) else Change(p.intent, r.version, url)
  }

  function PeerNotification(p: Publication, r: Receipt, deleted: bool, url: Id, payload: Id, now: int): Notification {
    Notification(
      PeerIdentity(p, r, deleted, url), 0, p.intent, p.desiredVersion, url, payload, 0, now, None, None)
  }

  /** The copy a successful put confirms, and the one a completed withdrawal confirms. */
  function ConfirmedCopy(p: Publication, r: Receipt): Publication {
    ApplyReceipt(p, r).(publishedVersion := p.desiredVersion, confirmedState := p.desiredState, syncStatus := Confirmed)
  }

  function WithdrawnCopy(p: Publication): Publication {
    p.(syncStatus := Withdrawn, confirmedState := WithdrawnState, publishedVersion := 0)
  }

  function FailedCopy(p: Publication, permanent: bool, nextAttemptAt: int): Publication {
    if permanent then p.(syncStatus := Blocked, nextAttemptAt := ZERO_TIME)
    else p.(syncStatus := Retrying, nextAttemptAt := nextAttemptAt)
  }

  function Move(w: Worker, phase: Phase): Worker { w.(phase := phase) }

  /** Withdrawal without a known OVN reads the reference first; everything else is checked and put. */
  function Decided(s: State, w: Worker, e: WorkerEvent): Worker {
    match e
    case ReadReference(answered, subscription) =>
      if !answered then Move(w, Failing(false))
      else if s.dss.Absent? then Move(w, ConfirmingWithdrawal(NO_RECEIPT, []))
      else Worker(RenewingDelete, ApplyReceipt(w.p, ReferenceReceipt(s.dss, subscription)), w.lease)
    case Check(clear, permanent) =>
      if w.p.desiredState.WithdrawnState? then Move(w, RenewingDelete)
      else if clear then Move(w, RenewingPut) else Move(w, Failing(permanent))
    case _ => w
  }

  predicate MayDecide(w: Worker, e: WorkerEvent) {
    if w.p.desiredState.WithdrawnState? && w.p.ovn == NO_OVN then e.ReadReference? else e.Check?
  }

  /** The mutation a call asks for is possible now: create needs absence, update and delete need the current OVN. */
  predicate Performs(s: State, w: Worker) {
    if w.phase.Putting? && w.p.ovn == NO_OVN then s.dss.Absent? else s.dss.Held? && s.dss.ovn == w.p.ovn
  }

  function Mutated(s: State, w: Worker, ovn: nat): Reference {
    if w.phase.Deleting? then Absent
    else Held(ovn, if s.dss.Held? then s.dss.version + 1 else 1, w.p.desiredState, w.p.desiredVersion)
  }

  function PerformedReceipt(s: State, w: Worker, e: WorkerEvent): Receipt
    requires e.Process?
  {
    if w.phase.Deleting? && s.dss.Held? then Receipt(s.dss.version, s.dss.ovn, e.subscription, e.subscribers)
    else Receipt(if s.dss.Held? then s.dss.version + 1 else 1, e.ovn, e.subscription, e.subscribers)
  }

  function Answered(w: Worker, answer: Answer): Worker {
    if w.phase.Deleting? then Move(w, Deleting(Some(answer))) else Move(w, Putting(Some(answer)))
  }

  function ReturnedDelete(w: Worker, answer: Option<Answer>, e: WorkerEvent, now: int): Worker
    requires e.Return?
  {
    if e.lost || answer.None? then Move(w, Failing(false))
    else match answer.value
      case Missing => Move(w, RecoveringSubscribers)
      case Conflicted => Move(w, DeleteConflict)
      case Performed(r) => Withdrawing(w, r, e.payloads, now)
  }

  /** confirmWithdrawal up to its store call. */
  function Withdrawing(w: Worker, r: Receipt, payloads: Option<seq<Id>>, now: int): Worker {
    var p := ApplyReceipt(w.p, r);
    var added := PeerNotifications(p, r, true, payloads, now);
    if added.None? then Worker(Failing(false), p, w.lease) else Worker(ConfirmingWithdrawal(r, added.value), p, w.lease)
  }

  function ReturnedPut(w: Worker, answer: Option<Answer>, e: WorkerEvent, now: int): Worker
    requires e.Return?
  {
    if e.lost || answer.None? || !answer.value.Performed? then Move(w, PutFailed(e.permanent))
    else
      var r := answer.value.receipt;
      var added := PeerNotifications(w.p, r, false, e.payloads, now);
      Worker(if added.None? then Failing(false) else Confirming(r, added.value), ConfirmedCopy(w.p, r), w.lease)
  }

  /** What a worker learns by reading the reference after a failed mutation. */
  function ReadBack(s: State, w: Worker, e: WorkerEvent): Worker
    requires e.ReadReference?
  {
    var permanent := w.phase.PutFailed? && w.phase.permanent;
    if !e.answered || s.dss.Absent? then Move(w, Failing(permanent))
    else
      var p := ApplyReceipt(w.p, ReferenceReceipt(s.dss, e.subscription));
      if w.phase.PutFailed? && s.dss.version > w.p.dssVersion && s.dss.state == w.p.desiredState
      then Worker(Failing(false), p.(publishedVersion := p.desiredVersion, confirmedState := s.dss.state), w.lease)
      else Worker(Failing(permanent), p, w.lease)
  }

  function RecoveredReceipt(p: Publication, subscribers: seq<Id>): Receipt {
    Receipt(p.dssVersion, p.ovn, p.subscription, subscribers)
  }

  function Recovered(w: Worker, e: WorkerEvent, now: int): Worker
    requires e.Recover?
  {
    if e.found.None? then Move(w, Failing(false))
    else Withdrawing(w, RecoveredReceipt(w.p, e.found.value), e.payloads, now)
  }

  /** The record a worker's last store call offers. */
  function Offer(w: Worker, nextAttemptAt: int): Option<Publication> {
    match w.phase
    case Failing(permanent) => Some(FailedCopy(w.p, permanent, nextAttemptAt))
    case Confirming(_, _) => Some(w.p)
    case ConfirmingWithdrawal(_, _) => Some(WithdrawnCopy(w.p))
    case _ => None
  }

  function Queued(w: Worker): seq<Notification> {
    if w.phase.Confirming? || w.phase.ConfirmingWithdrawal? then w.phase.added else []
  }

  predicate Owns(s: State, w: Worker) { s.pub.Some? && s.pub.value.revision == w.p.revision }

  /** One step of worker `n`. */
  ghost predicate Works(s: State, n: nat, e: WorkerEvent, s': State)
    requires n in s.workers
  {
    var w := s.workers[n];
    match (w.phase, e)
    case (Deciding, _) => MayDecide(w, e) && s' == s.(workers := s.workers[n := Decided(s, w, e)])
    case (RenewingDelete, Renew(leaseUntil)) => Renews(s, n, Deleting(None), leaseUntil, s')
    case (RenewingPut, Renew(leaseUntil)) => Renews(s, n, Putting(None), leaseUntil, s')
    case (Deleting(None), Process(_, _, _)) => Processes(s, n, e, s')
    case (Putting(None), Process(_, _, _)) => Processes(s, n, e, s')
    case (Deleting(answer), Return(_, _, _)) =>
      s' == s.(workers := s.workers[n := ReturnedDelete(w, answer, e, s.clock)])
    case (Putting(answer), Return(_, _, _)) => s' == s.(workers := s.workers[n := ReturnedPut(w, answer, e, s.clock)])
    case (DeleteConflict, ReadReference(_, _)) => s' == s.(workers := s.workers[n := ReadBack(s, w, e)])
    case (PutFailed(_), ReadReference(_, _)) => s' == s.(workers := s.workers[n := ReadBack(s, w, e)])
    case (RecoveringSubscribers, Recover(_, _)) => s' == s.(workers := s.workers[n := Recovered(w, e, s.clock)])
    case (_, Write(nextAttemptAt)) => Offer(w, nextAttemptAt).Some? && Writes(s, n, nextAttemptAt, s')
    case _ => false
  }

  /** RenewLease by claimed revision; a worker that lost its revision gives up. */
  ghost predicate Renews(s: State, n: nat, next: Phase, leaseUntil: int, s': State)
    requires n in s.workers
  {
    var w := s.workers[n];
    if Owns(s, w)
    then s' == s.(pub := Some(s.pub.value.(leaseUntil := Some(leaseUntil))),
      workers := s.workers[n := Worker(next, w.p, leaseUntil)])
    else s' == s.(workers := s.workers[n := Move(w, Finished)])
  }

  /** The DSS handles a call: it performs the mutation while the lease runs, or refuses it. */
  ghost predicate Processes(s: State, n: nat, e: WorkerEvent, s': State)
    requires n in s.workers && e.Process?
  {
    var w := s.workers[n];
    if Performs(s, w) then
      && s.clock < w.lease && e.ovn != NO_OVN
      && s' == s.(dss := Mutated(s, w, e.ovn),
         workers := s.workers[n := Answered(w, Performed(PerformedReceipt(s, w, e)))])
    else s' == s.(workers := s.workers[n := Answered(w, if s.dss.Absent? then Missing else Conflicted)])
  }

  /** The closing compare-and-swap, with its notifications in the same store call. */
  ghost predicate Writes(s: State, n: nat, nextAttemptAt: int, s': State)
    requires n in s.workers && Offer(s.workers[n], nextAttemptAt).Some?
  {
    var w := s.workers[n];
    var done := s.workers[n := Move(w, Finished)];
    if Owns(s, w)
    then s' == s.(pub := Some(Written(Offer(w, nextAttemptAt).value, w.p.revision)), workers := done,
      outbox := Enqueue(s.outbox, Queued(w)))
    else s' == s.(workers := done)
  }

  ghost predicate Next(intent: Id, s: State, step: Step, s': State) {
    match step
    case Tick(to) => s.clock <= to && s' == s.(clock := to)
    case AcceptVersion(version) => version != 0 && s' == s.(accepted := s.accepted + {version})
    case Request(version, desired) =>
      && !desired.Unconfirmed? && (desired.WithdrawnState? || version in s.accepted)
      && s' == s.(pub := Some(Requested(s.pub, PublicationRequest(intent, version, desired, s.clock))))
    case Claim(n, leaseUntil) =>
      && n !in s.workers && s.pub.Some? && LeaseFree(s.pub.value.leaseUntil, s.clock)
      && var p := Claimed(s.pub.value, leaseUntil);
         s' == s.(pub := Some(p), workers := s.workers[n := Worker(Deciding, p, leaseUntil)], last := n)
    case Work(n, e) => n in s.workers && Works(s, n, e, s')
    case OutboxMoves(outbox) => SameQueued(intent, s.outbox, outbox) && s' == s.(outbox := outbox)
  }

  /** Deliveries and other intents change the queue, but none of the identities it holds for this intent. */
  ghost predicate SameQueued(intent: Id, before: map<NotificationId, Notification>,
                             after: map<NotificationId, Notification>) {
    forall id :: id in before + after && id.intent == intent ==> id in before && id in after
  }

  /* ---- the invariant ---- */

  ghost predicate Inv(intent: Id, s: State) {
    && RecordOk(intent, s) && 0 !in s.accepted
    && DssAccepted(s.dss, s.accepted)
    && (forall n :: n in s.workers ==> CopyOk(intent, s.accepted, s.workers[n]))
    && (forall n :: n in s.workers ==> FenceOk(s, n))
    && (forall n :: n in s.workers ==> OutcomeOk(s, s.workers[n]))
  }

  predicate Settled(status: SyncStatus) {
    status.Confirmed? || status.Withdrawn? || status.Retrying? || status.Blocked?
  }

  /** Confirmed means the DSS holds exactly the stored OVN, confirmed state and published version, which are the
      desired ones; Withdrawn means the DSS holds nothing. Published versions were accepted. */
  ghost predicate RecordOk(intent: Id, s: State) {
    s.pub.Some? ==>
      && var p := s.pub.value;
         && p.intent == intent && VersionsOk(p, s.accepted)
         && (Settled(p.syncStatus) ==> s.last in s.workers ==> s.workers[s.last].phase.Finished?)
         && (p.syncStatus.Confirmed? ==> ConfirmedOk(p, s.dss))
         && (p.syncStatus.Withdrawn? ==> WithdrawnOk(p, s.dss))
  }

  ghost predicate ConfirmedOk(p: Publication, dss: Reference) {
    && dss == Held(p.ovn, p.dssVersion, p.confirmedState, p.publishedVersion) && p.ovn != NO_OVN
    && p.publishedVersion == p.desiredVersion && p.confirmedState == p.desiredState && !p.desiredState.WithdrawnState?
  }

  ghost predicate WithdrawnOk(p: Publication, dss: Reference) {
    dss.Absent? && p.desiredState.WithdrawnState? && p.confirmedState.WithdrawnState? && p.publishedVersion == 0
  }

  ghost predicate VersionsOk(p: Publication, accepted: set<int>) {
    && (p.publishedVersion != 0 ==> p.publishedVersion in accepted)
    && (!p.desiredState.WithdrawnState? ==> p.desiredVersion in accepted)
    && !p.desiredState.Unconfirmed?
  }

  ghost predicate DssAccepted(dss: Reference, accepted: set<int>) {
    dss.Held? ==> dss.intentVersion in accepted && dss.ovn != NO_OVN
  }

  ghost predicate CopyOk(intent: Id, accepted: set<int>, w: Worker) {
    && w.p.intent == intent && VersionsOk(w.p, accepted)
    && (Withdraws(w.phase) ==> w.p.desiredState.WithdrawnState?)
    && (Puts(w.phase) ==> !w.p.desiredState.WithdrawnState?)
    && (w.phase.Confirming? ==> AddressesAll(w.p, w.phase.used, false, w.phase.added) && ReceiptUsed(w.p, w.phase.used))
    && (w.phase.ConfirmingWithdrawal? ==> AddressesAll(w.p, w.phase.used, true, w.phase.added))
  }

  /** One notification for every subscriber of the receipt, in order. */
  ghost predicate AddressesAll(p: Publication, r: Receipt, deleted: bool, added: seq<Notification>) {
    && |added| == |r.subscribers|
    && forall k :: 0 <= k < |added| ==>
       added[k].id == PeerIdentity(p, r, deleted, r.subscribers[k]) && added[k].deliveredAt.None?
  }

  predicate ReceiptUsed(p: Publication, r: Receipt) { p.dssVersion == r.version && p.ovn == r.ovn }

  predicate Withdraws(phase: Phase) {
    phase.RenewingDelete? || phase.Deleting? || phase.DeleteConflict? || phase.RecoveringSubscribers? ||
    phase.ConfirmingWithdrawal?
  }

  predicate Puts(phase: Phase) { phase.RenewingPut? || phase.Putting? || phase.PutFailed? || phase.Confirming? }

  predicate HoldsLease(s: State, w: Worker) { !w.phase.Finished? && s.clock < w.lease }

  /** Only the latest claimer can still match the revision or hold an unexpired lease, which the record covers. */
  ghost predicate FenceOk(s: State, n: nat)
    requires n in s.workers
  {
    var w := s.workers[n];
    && s.pub.Some? && w.p.revision <= s.pub.value.revision
    && (n != s.last ==> w.p.revision < s.pub.value.revision)
    && (HoldsLease(s, w) ==> n == s.last && s.pub.value.leaseUntil.Some? && w.lease <= s.pub.value.leaseUntil.value)
  }

  /** While a worker still matches the revision, the record's desired state is its own and the DSS is as it found
      or left it. */
  ghost predicate OutcomeOk(s: State, w: Worker) {
    Owns(s, w) && !w.phase.Finished? ==>
      && s.pub.value.desiredState == w.p.desiredState && s.pub.value.desiredVersion == w.p.desiredVersion
      && (w.p.publishedVersion == s.pub.value.publishedVersion || w.p.publishedVersion == w.p.desiredVersion)
      && Found(s.dss, w)
  }

  ghost predicate Found(dss: Reference, w: Worker) {
    match w.phase
    case Deleting(Some(Performed(_))) => dss.Absent?
    case Deleting(Some(Missing)) => dss.Absent?
    case RecoveringSubscribers => dss.Absent?
    case ConfirmingWithdrawal(_, _) => dss.Absent?
    case Putting(Some(Performed(r))) =>
      r.ovn != NO_OVN && dss == Held(r.ovn, r.version, w.p.desiredState, w.p.desiredVersion)
    case Confirming(_, _) => w.p.syncStatus.Confirmed? && ConfirmedOk(w.p, dss)
    case _ => true
  }

  lemma InitialInv(intent: Id)
    ensures Inv(intent, INITIAL)
  {
  }

  /* ---- local steps ---- */

  /** A worker moves on without touching the record or the DSS. */
  ghost predicate Local(intent: Id, s: State, n: nat, w': Worker)
    requires n in s.workers
  {
    var w := s.workers[n];
    && !w.phase.Finished? && w'.p.revision == w.p.revision && w'.lease == w.lease
    && CopyOk(intent, s.accepted, w') && OutcomeOk(s, w')
  }

  lemma LocalKeeps(intent: Id, s: State, n: nat, w': Worker)
    requires Inv(intent, s) && n in s.workers && Local(intent, s, n, w')
    ensures Inv(intent, s.(workers := s.workers[n := w']))
  {
    var s' := s.(workers := s.workers[n := w']);
    assert RecordOk(intent, s') by { hide VersionsOk, ConfirmedOk, WithdrawnOk; }
    forall m | m in s'.workers ensures FenceOk(s', m) && OutcomeOk(s', s'.workers[m]) &&
      CopyOk(intent, s.accepted, s'.workers[m]) {
      assert FenceOk(s, n);
      if m != n {
        assert FenceOk(s, m) && OutcomeOk(s, s.workers[m]);
      }
    }
    hide RecordOk, FenceOk, OutcomeOk, CopyOk, DssAccepted;
  }

  lemma DecideLocal(intent: Id, s: State, n: nat, e: WorkerEvent)
    requires Inv(intent, s) && n in s.workers && s.workers[n].phase.Deciding? && MayDecide(s.workers[n], e)
    ensures Local(intent, s, n, Decided(s, s.workers[n], e))
  {
    assert CopyOk(intent, s.accepted, s.workers[n]) && OutcomeOk(s, s.workers[n]);
    hide Inv, VersionsOk;
    if e.ReadReference? && e.answered && s.dss.Held? {
      VersionsByFields(s.workers[n].p, Decided(s, s.workers[n], e).p, s.accepted);
    }
  }

  lemma VersionsByFields(p: Publication, q: Publication, accepted: set<int>)
    requires VersionsOk(p, accepted) && q.desiredState == p.desiredState && q.desiredVersion == p.desiredVersion
    requires q.publishedVersion == p.publishedVersion || q.publishedVersion == 0
             || (q.publishedVersion == p.desiredVersion && !p.desiredState.WithdrawnState?)
    ensures VersionsOk(q, accepted)
  {
  }

  lemma ReturnLocal(intent: Id, s: State, n: nat, e: WorkerEvent)
    requires Inv(intent, s) && n in s.workers && e.Return?
    ensures s.workers[n].phase.Deleting? ==>
      Local(intent, s, n, ReturnedDelete(s.workers[n], s.workers[n].phase.answer, e, s.clock))
    ensures s.workers[n].phase.Putting? ==>
      Local(intent, s, n, ReturnedPut(s.workers[n], s.workers[n].phase.answer, e, s.clock))
  {
    var w := s.workers[n];
    assert CopyOk(intent, s.accepted, w) && OutcomeOk(s, w);
    hide Inv, VersionsOk;
    if w.phase.Deleting? {
      VersionsByFields(w.p, ReturnedDelete(w, w.phase.answer, e, s.clock).p, s.accepted);
    } else if w.phase.Putting? {
      VersionsByFields(w.p, ReturnedPut(w, w.phase.answer, e, s.clock).p, s.accepted);
    }
  }

  lemma ReadBackLocal(intent: Id, s: State, n: nat, e: WorkerEvent)
    requires Inv(intent, s) && n in s.workers && e.ReadReference?
    requires s.workers[n].phase.DeleteConflict? || s.workers[n].phase.PutFailed?
    ensures Local(intent, s, n, ReadBack(s, s.workers[n], e))
  {
    var w := s.workers[n];
    assert CopyOk(intent, s.accepted, w) && OutcomeOk(s, w);
    hide Inv, VersionsOk;
    VersionsByFields(w.p, ReadBack(s, w, e).p, s.accepted);
  }

  lemma RecoverLocal(intent: Id, s: State, n: nat, e: WorkerEvent)
    requires Inv(intent, s) && n in s.workers && e.Recover? && s.workers[n].phase.RecoveringSubscribers?
    ensures Local(intent, s, n, Recovered(s.workers[n], e, s.clock))
  {
    var w := s.workers[n];
    assert CopyOk(intent, s.accepted, w) && OutcomeOk(s, w);
    hide Inv, VersionsOk;
    VersionsByFields(w.p, Recovered(w, e, s.clock).p, s.accepted);
  }

  lemma RefusedLocal(intent: Id, s: State, n: nat)
    requires Inv(intent, s) && n in s.workers && (s.workers[n].phase.Deleting? || s.workers[n].phase.Putting?)
    requires !Performs(s, s.workers[n])
    ensures Local(intent, s, n, Answered(s.workers[n], if s.dss.Absent? then Missing else Conflicted))
    ensures Local(intent, s, n, Move(s.workers[n], Finished))
  {
    assert CopyOk(intent, s.accepted, s.workers[n]) && OutcomeOk(s, s.workers[n]);
    hide Inv, VersionsOk;
  }

  lemma GiveUpLocal(intent: Id, s: State, n: nat)
    requires Inv(intent, s) && n in s.workers && !s.workers[n].phase.Finished?
    ensures Local(intent, s, n, Move(s.workers[n], Finished))
  {
    assert CopyOk(intent, s.accepted, s.workers[n]) && OutcomeOk(s, s.workers[n]);
    hide Inv, VersionsOk;
  }

  /* ---- renewal, mutation and the closing write ---- */

  lemma RenewKeeps(intent: Id, s: State, n: nat, next: Phase, leaseUntil: int)
    requires Inv(intent, s) && n in s.workers && Owns(s, s.workers[n]) && !s.workers[n].phase.Finished?
    requires (next == Deleting(None) && Withdraws(s.workers[n].phase)) ||
      (next == Putting(None) && Puts(s.workers[n].phase))
    ensures var w := s.workers[n];
      Inv(intent, s.(pub := Some(s.pub.value.(leaseUntil := Some(leaseUntil))),
        workers := s.workers[n := Worker(next, w.p, leaseUntil)]))
  {
    var w := s.workers[n];
    var s' := s.(pub := Some(s.pub.value.(leaseUntil := Some(leaseUntil))),
        workers := s.workers[n := Worker(next, w.p, leaseUntil)]);
    assert FenceOk(s, n) && n == s.last;
    forall m | m in s'.workers ensures FenceOk(s', m) && OutcomeOk(s', s'.workers[m]) &&
      CopyOk(intent, s.accepted, s'.workers[m]) {
      assert FenceOk(s, m) && OutcomeOk(s, s.workers[m]) && CopyOk(intent, s.accepted, s.workers[m]);
    }
    hide FenceOk, OutcomeOk, CopyOk, DssAccepted;
  }

  /** A mutation is performed only by the latest claimer, so no other worker's findings are disturbed. */
  lemma ProcessKeeps(intent: Id, s: State, n: nat, e: WorkerEvent, s': State)
    requires Inv(intent, s) && n in s.workers && e.Process? && Performs(s, s.workers[n]) && s.clock < s.workers[n].lease
    requires e.ovn != NO_OVN
    requires s.workers[n].phase == Deleting(None) || s.workers[n].phase == Putting(None)
    requires s' == s.(dss := Mutated(s, s.workers[n], e.ovn),
                      workers := s.workers[n := Answered(s.workers[n],
                        Performed(PerformedReceipt(s, s.workers[n], e)))])
    ensures Inv(intent, s')
  {
    var w := s.workers[n];
    assert FenceOk(s, n) && HoldsLease(s, w) && n == s.last;
    assert CopyOk(intent, s.accepted, w);
    assert RecordOk(intent, s') by { hide VersionsOk, ConfirmedOk, WithdrawnOk; }
    forall m | m in s'.workers ensures FenceOk(s', m) && OutcomeOk(s', s'.workers[m]) &&
      CopyOk(intent, s.accepted, s'.workers[m]) {
      assert FenceOk(s, m) && OutcomeOk(s, s.workers[m]) && CopyOk(intent, s.accepted, s.workers[m]);
    }
    assert DssAccepted(s'.dss, s.accepted);
    hide RecordOk, FenceOk, OutcomeOk, CopyOk, DssAccepted;
  }

  lemma WriteKeeps(intent: Id, s: State, n: nat, nextAttemptAt: int, s': State)
    requires Inv(intent, s) && n in s.workers && Offer(s.workers[n], nextAttemptAt).Some? && Owns(s, s.workers[n])
    requires Writes(s, n, nextAttemptAt, s')
    ensures Inv(intent, s')
  {
    var w := s.workers[n];
    var q := Offer(w, nextAttemptAt).value;
    assert FenceOk(s, n) && n == s.last;
    assert CopyOk(intent, s.accepted, w) && OutcomeOk(s, w);
    VersionsByFields(w.p, q, s.accepted);
    VersionsByFields(q, Written(q, w.p.revision), s.accepted);
    assert RecordOk(intent, s') by { hide VersionsOk, Inv, Enqueue; }
    forall m | m in s'.workers ensures FenceOk(s', m) && OutcomeOk(s', s'.workers[m]) &&
      CopyOk(intent, s.accepted, s'.workers[m]) {
      assert FenceOk(s, m) && OutcomeOk(s, s.workers[m]) && CopyOk(intent, s.accepted, s.workers[m]);
    }
    hide RecordOk, FenceOk, OutcomeOk, CopyOk, DssAccepted;
  }

  /* ---- every step ---- */

  lemma WorkKeeps(intent: Id, s: State, n: nat, e: WorkerEvent, s': State)
    requires Inv(intent, s) && n in s.workers && Works(s, n, e, s')
    ensures Inv(intent, s')
  {
    var w := s.workers[n];
    hide Inv, Local, CopyOk, OutcomeOk, FenceOk;
    match w.phase
    case Deciding => DecideLocal(intent, s, n, e); LocalKeeps(intent, s, n, Decided(s, w, e));
    case RenewingDelete => RenewStep(intent, s, n, Deleting(None), e.leaseUntil, s');
    case RenewingPut => RenewStep(intent, s, n, Putting(None), e.leaseUntil, s');
    case DeleteConflict => ReadBackLocal(intent, s, n, e); LocalKeeps(intent, s, n, ReadBack(s, w, e));
    case PutFailed(_) => ReadBackLocal(intent, s, n, e); LocalKeeps(intent, s, n, ReadBack(s, w, e));
    case RecoveringSubscribers => RecoverLocal(intent, s, n, e); LocalKeeps(intent, s, n, Recovered(w, e, s.clock));
    case Deleting(answer) => CallKeeps(intent, s, n, e, s');
    case Putting(answer) => CallKeeps(intent, s, n, e, s');
    case _ => CloseStep(intent, s, n, e.nextAttemptAt, s');
  }

  lemma RenewStep(intent: Id, s: State, n: nat, next: Phase, leaseUntil: int, s': State)
    requires Inv(intent, s) && n in s.workers && Renews(s, n, next, leaseUntil, s') && !s.workers[n].phase.Finished?
    requires (next == Deleting(None) && Withdraws(s.workers[n].phase)) ||
      (next == Putting(None) && Puts(s.workers[n].phase))
    ensures Inv(intent, s')
  {
    hide Inv, Local;
    if Owns(s, s.workers[n]) {
      RenewKeeps(intent, s, n, next, leaseUntil);
    } else {
      GiveUpLocal(intent, s, n);
      LocalKeeps(intent, s, n, Move(s.workers[n], Finished));
    }
  }

  lemma CallKeeps(intent: Id, s: State, n: nat, e: WorkerEvent, s': State)
    requires Inv(intent, s) && n in s.workers && Works(s, n, e, s')
    requires (s.workers[n].phase.Deleting? || s.workers[n].phase.Putting?)
    ensures Inv(intent, s')
  {
    var w := s.workers[n];
    hide Inv, Local, Mutated, PerformedReceipt;
    if e.Return? {
      ReturnLocal(intent, s, n, e);
      LocalKeeps(intent, s, n, s'.workers[n]);
    } else if Performs(s, w) {
      ProcessKeeps(intent, s, n, e, s');
    } else {
      RefusedLocal(intent, s, n);
      LocalKeeps(intent, s, n, s'.workers[n]);
    }
  }

  lemma CloseStep(intent: Id, s: State, n: nat, nextAttemptAt: int, s': State)
    requires Inv(intent, s) && n in s.workers && Offer(s.workers[n], nextAttemptAt).Some?
    requires Writes(s, n, nextAttemptAt, s')
    ensures Inv(intent, s')
  {
    hide Inv, Local;
    if Owns(s, s.workers[n]) {
      WriteKeeps(intent, s, n, nextAttemptAt, s');
    } else {
      GiveUpLocal(intent, s, n);
      LocalKeeps(intent, s, n, Move(s.workers[n], Finished));
    }
  }

  lemma RequestKeeps(intent: Id, s: State, version: int, desired: ExternalState)
    requires Inv(intent, s) && !desired.Unconfirmed? && (desired.WithdrawnState? || version in s.accepted)
    ensures Inv(intent, s.(pub := Some(Requested(s.pub, PublicationRequest(intent, version, desired, s.clock)))))
  {
    var s' := s.(pub := Some(Requested(s.pub, PublicationRequest(intent, version, desired, s.clock))));
    forall m | m in s'.workers ensures FenceOk(s', m) && OutcomeOk(s', s'.workers[m]) {
      assert FenceOk(s, m) && OutcomeOk(s, s.workers[m]);
    }
    hide FenceOk, OutcomeOk, CopyOk, DssAccepted;
  }

  /** A claim needs every earlier lease to have run out. */
  lemma ClaimKeeps(intent: Id, s: State, n: nat, leaseUntil: int)
    requires Inv(intent, s) && n !in s.workers && s.pub.Some? && LeaseFree(s.pub.value.leaseUntil, s.clock)
    ensures var p := Claimed(s.pub.value, leaseUntil);
      Inv(intent, s.(pub := Some(p), workers := s.workers[n := Worker(Deciding, p, leaseUntil)], last := n))
  {
    var p := Claimed(s.pub.value, leaseUntil);
    var s' := s.(pub := Some(p), workers := s.workers[n := Worker(Deciding, p, leaseUntil)], last := n);
    forall m | m in s'.workers ensures FenceOk(s', m) && OutcomeOk(s', s'.workers[m]) &&
      CopyOk(intent, s.accepted, s'.workers[m]) {
      if m != n {
        assert FenceOk(s, m) && OutcomeOk(s, s.workers[m]) && CopyOk(intent, s.accepted, s.workers[m]);
      }
    }
    hide FenceOk, OutcomeOk, CopyOk, DssAccepted;
  }

  lemma TickKeeps(intent: Id, s: State, to: int)
    requires Inv(intent, s) && s.clock <= to
    ensures Inv(intent, s.(clock := to))
  {
    var s' := s.(clock := to);
    forall m | m in s'.workers ensures FenceOk(s', m) && OutcomeOk(s', s'.workers[m]) {
      assert FenceOk(s, m) && OutcomeOk(s, s.workers[m]);
    }
    hide FenceOk, OutcomeOk, CopyOk, DssAccepted;
  }

  lemma AcceptKeeps(intent: Id, s: State, version: int)
    requires Inv(intent, s) && version != 0
    ensures Inv(intent, s.(accepted := s.accepted + {version}))
  {
    var s' := s.(accepted := s.accepted + {version});
    forall m | m in s'.workers ensures FenceOk(s', m) && OutcomeOk(s', s'.workers[m]) &&
      CopyOk(intent, s'.accepted, s'.workers[m]) {
      assert FenceOk(s, m) && OutcomeOk(s, s.workers[m]) && CopyOk(intent, s.accepted, s.workers[m]);
    }
    hide FenceOk, OutcomeOk, CopyOk;
  }

  lemma NextKeepsInv(intent: Id, s: State, step: Step, s': State)
    requires Inv(intent, s) && Next(intent, s, step, s')
    ensures Inv(intent, s')
  {
    hide Inv, Works;
    match step
    case Tick(to) => TickKeeps(intent, s, to);
    case AcceptVersion(version) => AcceptKeeps(intent, s, version);
    case Request(version, desired) => RequestKeeps(intent, s, version, desired);
    case Claim(n, leaseUntil) => ClaimKeeps(intent, s, n, leaseUntil);
    case Work(n, e) => WorkKeeps(intent, s, n, e, s');
    case OutboxMoves(outbox) => QueueKeeps(intent, s, outbox);
  }

  lemma QueueKeeps(intent: Id, s: State, outbox: map<NotificationId, Notification>)
    requires Inv(intent, s)
    ensures Inv(intent, s.(outbox := outbox))
  {
    var s' := s.(outbox := outbox);
    forall m | m in s'.workers ensures FenceOk(s', m) && OutcomeOk(s', s'.workers[m]) &&
      CopyOk(intent, s.accepted, s'.workers[m]) {
      assert FenceOk(s, m) && OutcomeOk(s, s.workers[m]) && CopyOk(intent, s.accepted, s.workers[m]);
    }
    hide FenceOk, OutcomeOk, CopyOk, DssAccepted;
  }

  ghost predicate Follows(intent: Id, s: State, s': State) { exists step :: Next(intent, s, step, s') }

  ghost predicate IsRun(intent: Id, run: seq<State>) {
    |run| > 0 && run[0] == INITIAL && forall k :: 0 <= k < |run| - 1 ==> Follows(intent, run[k], run[k + 1])
  }

  lemma {:induction false} RunKeepsInv(intent: Id, run: seq<State>, k: nat)
    requires IsRun(intent, run) && k < |run|
    ensures Inv(intent, run[k])
  {
    hide *;
    if k == 0 {
      InitialInv(intent);
      RunStarts(intent, run);
    } else {
      RunKeepsInv(intent, run, k - 1);
      FollowsAt(intent, run, k - 1);
      FollowsKeepsInv(intent, run[k - 1], run[k]);
    }
  }

  lemma RunStarts(intent: Id, run: seq<State>)
    requires IsRun(intent, run)
    ensures run[0] == INITIAL
  {
    hide Follows;
  }

  lemma FollowsAt(intent: Id, run: seq<State>, k: nat)
    requires IsRun(intent, run) && k + 1 < |run|
    ensures Follows(intent, run[k], run[k + 1])
  {
    hide Follows;
  }

  lemma FollowsKeepsInv(intent: Id, s: State, s': State)
    requires Inv(intent, s) && Follows(intent, s, s')
    ensures Inv(intent, s')
  {
    hide Inv, Next;
    var step :| Next(intent, s, step, s');
    NextKeepsInv(intent, s, step, s');
  }

  /* ---- the guarantees ---- */

  /** For any mix of workers, desired states and lost answers: a Confirmed publication describes exactly what the DSS
      holds and what was desired, and a Withdrawn one means that the DSS holds nothing. */
  lemma ConfirmedMatchesDss(intent: Id, run: seq<State>, k: nat)
    requires IsRun(intent, run) && k < |run| && run[k].pub.Some?
    ensures var p, dss := run[k].pub.value, run[k].dss;
      && (p.syncStatus.Confirmed? ==>
            && dss == Held(p.ovn, p.dssVersion, p.confirmedState, p.publishedVersion)
            && p.confirmedState == p.desiredState && p.publishedVersion == p.desiredVersion
            && !p.desiredState.WithdrawnState?)
      && (p.syncStatus.Withdrawn? ==> dss == Absent && p.desiredState == WithdrawnState && p.publishedVersion == 0)
  {
    RunKeepsInv(intent, run, k);
    assert RecordOk(intent, run[k]);
  }

  /** Unexpired leases never overlap. */
  lemma LeasesNeverOverlap(intent: Id, run: seq<State>, k: nat, m: nat, n: nat)
    requires IsRun(intent, run) && k < |run| && m in run[k].workers && n in run[k].workers
    requires HoldsLease(run[k], run[k].workers[m]) && HoldsLease(run[k], run[k].workers[n])
    ensures m == n && run[k].pub.Some? && !LeaseFree(run[k].pub.value.leaseUntil, run[k].clock)
  {
    RunKeepsInv(intent, run, k);
    assert FenceOk(run[k], m) && FenceOk(run[k], n);
  }

  /** Every change of the record raises its revision, except that the current holder may extend its own lease; a
      request keeps the running lease. */
  lemma RevisionFences(intent: Id, s: State, step: Step, s': State)
    requires Inv(intent, s) && Next(intent, s, step, s') && s.pub.Some? && s'.pub != s.pub
    ensures s'.pub.Some?
    ensures if step.Work? && step.event.Renew?
            then s'.pub.value == s.pub.value.(leaseUntil := s'.pub.value.leaseUntil) && step.worker == s.last
            else s'.pub.value.revision == s.pub.value.revision + 1
    ensures step.Request? ==> s'.pub.value.leaseUntil == s.pub.value.leaseUntil
  {
    if step.Work? {
      assert FenceOk(s, step.worker);
    }
    hide Inv, FenceOk, Decided, ReadBack, ReturnedDelete, ReturnedPut, Recovered, Mutated, PerformedReceipt, Performs,
        Answered, MayDecide, Enqueue;
  }

  /** GetPublishedOperationalIntent: the version served to peers, if any. */
  function Served(pub: Option<Publication>, dssVersion: int): Option<int> {
    if pub.None? || pub.value.publishedVersion == 0 || pub.value.ovn == NO_OVN || pub.value.syncStatus.Withdrawn?
       || (dssVersion > 0 && pub.value.dssVersion != dssVersion)
    then None else Some(pub.value.publishedVersion)
  }

  predicate Closed(pub: Option<Publication>) {
    pub.Some? && (pub.value.syncStatus.Confirmed? || pub.value.syncStatus.Withdrawn?)
  }

  /** The worker that closes the publication with a receipt, and the identity its notification of subscriber `k` has. */
  ghost predicate Closes(w: Worker, closed: Publication) {
    if closed.syncStatus.Withdrawn? then w.phase.ConfirmingWithdrawal?
      else w.phase.Confirming? && ReceiptUsed(closed, w.phase.used)
  }

  ghost function ClosingIdentity(w: Worker, closed: Publication, k: nat): NotificationId
    requires Closes(w, closed) && k < |w.phase.used.subscribers|
  {
    PeerIdentity(closed, w.phase.used, closed.syncStatus.Withdrawn?, w.phase.used.subscribers[k])
  }

  /** The record is a notification of this closing for the subscriber, not yet taken by anybody. */
  ghost predicate FreshFor(w: Worker, k: nat, n: Notification)
    requires (w.phase.Confirming? || w.phase.ConfirmingWithdrawal?) && k < |w.phase.used.subscribers|
  {
    exists j ::
      0 <= j < |w.phase.added| && j < |w.phase.used.subscribers| &&
      w.phase.used.subscribers[j] == w.phase.used.subscribers[k]
                && n == w.phase.added[j].(revision := 0) && n.deliveredAt.None?
  }

  /** Entering Confirmed or Withdrawn and queueing are one step: a subscriber of the receipt gets a fresh record of this
      closing exactly when the queue held none of its identity; otherwise the old record stays as it was. */
  lemma ClosingNotifies(intent: Id, s: State, step: Step, s': State)
    requires Inv(intent, s) && Next(intent, s, step, s') && !Closed(s.pub) && Closed(s'.pub)
    ensures step.Work? && step.worker in s.workers && Closes(s.workers[step.worker], s'.pub.value)
    ensures var w := s.workers[step.worker];
      forall k :: 0 <= k < |w.phase.used.subscribers| ==>
        var id := ClosingIdentity(w, s'.pub.value, k);
        id in s'.outbox && if id in s.outbox then s'.outbox[id] == s.outbox[id] else FreshFor(w, k, s'.outbox[id])
  {
    ClosedByWrite(intent, s, step, s');
    var w := s.workers[step.worker];
    assert CopyOk(intent, s.accepted, w) && OutcomeOk(s, w);
    EnqueueContains(s.outbox, Queued(w));
    hide Inv, Next, Enqueue;
    forall k | 0 <= k < |w.phase.used.subscribers|
      ensures var id := ClosingIdentity(w, s'.pub.value, k);
        id in s'.outbox && if id in s.outbox then s'.outbox[id] == s.outbox[id] else FreshFor(w, k, s'.outbox[id])
    {
      var id := ClosingIdentity(w, s'.pub.value, k);
      assert w.phase.added[k].id == id;
      if id !in s.outbox {
        var j :| 0 <= j < |w.phase.added| && s'.outbox[id] == w.phase.added[j].(revision := 0) &&
            w.phase.added[j].id == id;
        assert w.phase.used.subscribers[j] == w.phase.used.subscribers[k];
        assert FreshFor(w, k, s'.outbox[id]);
      }
    }
  }

  lemma ClosedByWrite(intent: Id, s: State, step: Step, s': State)
    requires Inv(intent, s) && Next(intent, s, step, s') && !Closed(s.pub) && Closed(s'.pub)
    ensures step.Work? && step.worker in s.workers && step.event.Write?
    ensures Offer(s.workers[step.worker], step.event.nextAttemptAt).Some?
    ensures !s.workers[step.worker].phase.Failing? && Owns(s, s.workers[step.worker])
    ensures Writes(s, step.worker, step.event.nextAttemptAt, s')
  {
    hide Inv, Decided, ReadBack, ReturnedDelete, ReturnedPut, Recovered, Mutated, PerformedReceipt, Performs, Answered,
        MayDecide, Enqueue;
    assert Inv(intent, s);
  }

  lemma {:induction false} EnqueueContains(queued: map<NotificationId, Notification>, added: seq<Notification>)
    ensures forall k :: 0 <= k < |added| ==> added[k].id in Enqueue(queued, added)
    ensures forall id :: id in queued ==> id in Enqueue(queued, added) && Enqueue(queued, added)[id] == queued[id]
    ensures forall id :: id in Enqueue(queued, added) && id !in queued ==>
      exists k :: 0 <= k < |added| && Enqueue(queued, added)[id] == added[k].(revision := 0) && added[k].id == id
  {
    if added != [] {
      EnqueueContains(queued, added[..|added| - 1]);
    }
  }

  /* ---- a run that gets there ---- */

  /** The run in which an accepted version is requested, claimed and put without a fault ends Confirmed. */
  lemma ConfirmationHappens(intent: Id, version: int, ovn: nat) returns (run: seq<State>)
    requires version != 0 && ovn != NO_OVN
    ensures IsRun(intent, run) && run[|run| - 1].pub.Some? && run[|run| - 1].pub.value.syncStatus.Confirmed?
    ensures run[|run| - 1].dss == Held(ovn, 1, AcceptedState, version)
  {
    var request := PublicationRequest(intent, version, AcceptedState, 0);
    var asked := Requested(None, request);
    var p := Claimed(asked, 30);
    var receipt := Receipt(1, ovn, NO_ID, []);
    var s1 := INITIAL.(accepted := {version});
    var s2 := s1.(pub := Some(asked));
    var s3 := s2.(pub := Some(p), workers := map[1 := Worker(Deciding, p, 30)], last := 1);
    var s4 := s3.(workers := map[1 := Worker(RenewingPut, p, 30)]);
    var s5 := s4.(pub := Some(p.(leaseUntil := Some(40))), workers := map[1 := Worker(Putting(None), p, 40)]);
    var s6 := s5.(dss := Held(ovn, 1, AcceptedState, version),
        workers := map[1 := Worker(Putting(Some(Performed(receipt))), p, 40)]);
    var confirmed := ConfirmedCopy(p, receipt);
    var s7 := s6.(workers := map[1 := Worker(Confirming(receipt, []), confirmed, 40)]);
    var s8 := s7.(pub := Some(Written(confirmed, p.revision)), workers := map[1 := Worker(Finished, confirmed, 40)]);
    assert Next(intent, INITIAL, AcceptVersion(version), s1);
    assert Next(intent, s1, Request(version, AcceptedState), s2);
    assert Next(intent, s2, Claim(1, 30), s3);
    assert Next(intent, s3, Work(1, Check(true, false)), s4);
    assert Next(intent, s4, Work(1, Renew(40)), s5);
    assert Next(intent, s5, Work(1, Process(ovn, NO_ID, [])), s6);
    assert Next(intent, s6, Work(1, Return(false, false, Some([]))), s7) by {
      assert PeerNotifications(p, receipt, false, Some([]), 0).value == [];
    }
    assert Next(intent, s7, Work(1, Write(0)), s8) by {
      assert Enqueue(map[], []) == map[];
    }
    run := [INITIAL, s1, s2, s3, s4, s5, s6, s7, s8];
    hide Next;
  }
}
