/** The PostgreSQL store's fenced operations as statement programs. Statements of different transactions interleave
    freely and read committed data; a transaction keeps every lock it took until it ends. The deployment calls run
    beside them: each admission is a transaction of its call, every other step of a call a single statement. */
module PostgresTransactions {
  import opened Domain
  import opened StoreState
  import opened FleetFences
  import opened DeploymentCalls
  import O = Operations

  datatype Lock =
    | Key(kind: nat, key: Id)
    | FlightRow(flight: Id)
    | AircraftLifecycle(aircraft: Id)
    | AircraftActivation(aircraft: Id)
    | IntentLock(intent: Id)
    | MissionNumbering(flight: Id)

  const MISSION_KEYS := 1
  const DEPLOYMENT_KEYS := 3

  datatype Edit =
    | CreateEdit(intent: Intent)
    | UpdateEdit(intent: Intent, expected: int)
    | AcceptEdit(intent: Intent, expected: int)
    | ReplaceEdit(expectedVersion: int, expected: int, intent: Intent, volumes: seq<Volume>)
    | VolumeEdit(volume: Volume)
    | ActivateEdit(intent: Intent, expected: int)

  function EditId(e: Edit): Id { if e.VolumeEdit? then e.volume.intent else e.intent.id }

  /** The atomic operation an edit stands for. */
  ghost function Atomic(d: Data, e: Edit): (Data, Outcome) {
    match e
    case CreateEdit(intent) => CreateIntent(d, intent)
    case UpdateEdit(intent, expected) => UpdateIntent(d, intent, expected)
    case AcceptEdit(intent, expected) => AcceptIntent(d, intent, expected)
    case ReplaceEdit(expectedVersion, expected, intent, volumes) =>
      ReplaceIntent(d, expectedVersion, expected, intent, volumes)
    case VolumeEdit(volume) => RecordVolume(d, volume)
    case ActivateEdit(intent, expected) => ActivateIntent(d, intent, expected)
  }

  /** What the writing statement of an edit checks. */
  ghost predicate EditGuard(d: Data, e: Edit) {
    match e
    case CreateEdit(intent) => (intent.id, intent.version) !in d.intents
    case ReplaceEdit(expectedVersion, expected, intent, volumes) =>
      && (intent.version == expectedVersion || intent.version == expectedVersion + 1)
      && InScope(volumes, intent.id, intent.version)
      && CurrentIs(d, intent.id, expectedVersion, expected)
    case VolumeEdit(_) => true
    case _ => CurrentIs(d, e.intent.id, e.intent.version, e.expected)
  }

  /** Only activation writes an active version. */
  predicate ValidEdit(e: Edit) {
    e.VolumeEdit? || (if e.ActivateEdit? then e.intent.status.Active? else !e.intent.status.Active?)
  }

  /** The transactions: their arguments, how many statements have run, and what those read. An admission belongs to
      the deployment call that waits for it. */
  datatype Deploying = Deploying(caller: nat, dep: Deployment, at: nat, replay: Option<Deployment>, row: Flight,
                                 order: nat)
  datatype Starting = Starting(flight: Flight, at: nat, row: Flight, mission: Id, digest: Id)
  datatype Importing = Importing(draft: Mission, at: nat, row: Flight, version: int)
  datatype Editing = Editing(edit: Edit, at: nat)

  datatype Tx =
    | DeployTx(deploying: Deploying)
    | StartTx(starting: Starting)
    | ImportTx(importing: Importing)
    | EditTx(editing: Editing)

  /** The locks a transaction holds after its first `at` statements. */
  function Held(t: Tx): set<Lock> {
    match t
    case DeployTx(Deploying(_, dep, at, _, row, _)) =>
      Taken(at >= 1, Key(DEPLOYMENT_KEYS, dep.command.key)) + Taken(at >= 3, FlightRow(dep.command.flight)) +
      Taken(at >= 4, AircraftLifecycle(row.aircraft)) + Taken(at >= 5, IntentLock(row.intent))
    case StartTx(Starting(flight, at, row, _, _)) =>
      Taken(at >= 1, FlightRow(flight.id)) + Taken(at >= 2, AircraftLifecycle(row.aircraft)) + Taken(at >= 4,
        IntentLock(row.intent))
    case ImportTx(Importing(draft, at, row, _)) =>
      Taken(at >= 1, Key(MISSION_KEYS, draft.key)) + Taken(at >= 3, FlightRow(draft.flight)) +
      Taken(at >= 4, IntentLock(row.intent)) + Taken(at >= 7, MissionNumbering(draft.flight))
    case EditTx(Editing(edit, at)) =>
      Taken(at >= 1 && edit.ActivateEdit?,
        if edit.ActivateEdit? then AircraftActivation(edit.intent.aircraft) else IntentLock(EditId(edit))) +
      Taken(at >= 2, IntentLock(EditId(edit)))
  }

  function Taken(taken: bool, lock: Lock): set<Lock> { if taken then {lock} else {} }

  /** The lock the next statement asks for. */
  function NextLock(t: Tx): Option<Lock> {
    match t
    case DeployTx(Deploying(_, dep, at, _, row, _)) =>
      if at == 0 then Some(Key(DEPLOYMENT_KEYS, dep.command.key)) else if at == 2
        then Some(FlightRow(dep.command.flight))
      else if at == 3 then Some(AircraftLifecycle(row.aircraft)) else if at == 4 then Some(IntentLock(row.intent))
        else None
    case StartTx(Starting(flight, at, row, _, _)) =>
      if at == 0 then Some(FlightRow(flight.id)) else if at == 1 then Some(AircraftLifecycle(row.aircraft))
      else if at == 3 then Some(IntentLock(row.intent)) else None
    case ImportTx(Importing(draft, at, row, _)) =>
      if at == 0 then Some(Key(MISSION_KEYS, draft.key)) else if at == 2 then Some(FlightRow(draft.flight))
      else if at == 3 then Some(IntentLock(row.intent)) else if at == 6 then Some(MissionNumbering(draft.flight))
        else None
    case EditTx(Editing(edit, at)) =>
      if at == 0 && edit.ActivateEdit? then Some(AircraftActivation(edit.intent.aircraft))
      else if at == 1 then Some(IntentLock(EditId(edit))) else None
  }

  /* ---- no wait cycle ---- */

  /** The one order in which every transaction takes its locks. */
  function Rank(lock: Lock): int {
    match lock
    case Key(_, _) => 0
    case FlightRow(_) => 1
    case AircraftLifecycle(_) => 2
    case AircraftActivation(_) => 3
    case IntentLock(_) => 4
    case MissionNumbering(_) => 5
  }

  lemma LocksAscend(t: Tx, held: Lock)
    requires NextLock(t).Some? && held in Held(t)
    ensures Rank(held) < Rank(NextLock(t).value)
  {
  }

  predicate WaitsFor(t: Tx, u: Tx) { NextLock(t).Some? && NextLock(t).value in Held(u) }

  /** Waiting transactions along a chain ask for locks of growing rank. */
  lemma {:induction false} WaitingRanksGrow(chain: seq<Tx>, k: nat)
    requires 0 < k < |chain| && NextLock(chain[|chain| - 1]).Some?
    requires forall i :: 0 <= i < |chain| - 1 ==> WaitsFor(chain[i], chain[i + 1])
    ensures NextLock(chain[0]).Some? && NextLock(chain[k]).Some?
    ensures Rank(NextLock(chain[0]).value) < Rank(NextLock(chain[k]).value)
  {
    assert WaitsFor(chain[k - 1], chain[k - 1 + 1]);
    if k < |chain| - 1 {
      assert WaitsFor(chain[k], chain[k + 1]);
    }
    LocksAscend(chain[k], NextLock(chain[k - 1]).value);
    if k > 1 {
      WaitingRanksGrow(chain, k - 1);
    }
  }

  /** A ring of transactions each waiting for a lock of the next, and the last for one of the first. */
  ghost predicate WaitCycle(ring: seq<Tx>) {
    && |ring| > 0 && WaitsFor(ring[|ring| - 1], ring[0])
    && forall i :: 0 <= i < |ring| - 1 ==> WaitsFor(ring[i], ring[i + 1])
  }

  /** Transactions can never wait for one another in a ring. */
  lemma NoDeadlock(ring: seq<Tx>)
    ensures !WaitCycle(ring)
  {
    if WaitCycle(ring) {
      var last := ring[|ring| - 1];
      if |ring| > 1 {
        WaitingRanksGrow(ring, |ring| - 1);
        assert WaitsFor(ring[0], ring[0 + 1]);
      }
      LocksAscend(ring[0], NextLock(last).value);
    }
  }

  /* ---- statements and commits ---- */

  /** The committed data, the open transactions, the deployment calls, and the deployments whose command was sent. */
  datatype Pg = Pg(d: Data, txs: map<nat, Tx>, calls: map<nat, Call>, sent: seq<Id>)

  const PG_START := Pg(EMPTY, map[], map[], [])

  ghost predicate Free(s: Pg, n: nat, lock: Lock) {
    forall m :: m in s.txs && m != n ==> lock !in Held(s.txs[m])
  }

  ghost predicate NoneHolds(d: Data, aircraft: Id, replay: Option<Id>) {
    forall id :: HoldsAircraft(d, id, aircraft) ==> replay.Some? && id == replay.value
  }

  ghost predicate NoOtherFlying(d: Data, flight: Flight) {
    forall f :: f in d.flights && f != flight.id && d.flights[f].aircraft == flight.aircraft ==>
      !d.flights[f].status.Flying?
  }

  ghost predicate TopActive(d: Data, f: Flight) {
    && IsTop(d, f.intent, f.intentVersion)
    && var i := d.intents[(f.intent, f.intentVersion)]; i.aircraft == f.aircraft && i.status.Active?
  }

  ghost predicate NewestServes(d: Data, aircraft: Id, flight: Id, mission: Id, digest: Id) {
    exists id ::
      IsNewest(d, id, aircraft) && d.deployments[id].command.flight == flight &&
      d.deployments[id].command.mission == mission &&
                 d.deployments[id].command.digest == digest && Verified(d.deployments[id].status)
  }

  /** The next statement of a transaction runs to its normal end; `next` draws on the admission sequence. */
  ghost predicate Runs(d: Data, t: Tx, t': Tx, next: nat) {
    match (t, t')
    case (DeployTx(a), DeployTx(b)) => RunsDeploy(d, a, b, next)
    case (StartTx(a), StartTx(b)) => next == d.nextOrder && RunsStart(d, a, b)
    case (ImportTx(a), ImportTx(b)) => next == d.nextOrder && RunsImport(d, a, b)
    case (EditTx(a), EditTx(b)) => next == d.nextOrder && RunsEdit(d, a, b)
    case _ => false
  }

  ghost predicate RunsDeploy(d: Data, t: Deploying, t': Deploying, next: nat)
  {
    var c := t.dep.command;
    && (t.at == 9 <==> next != d.nextOrder)
    && match t.at
       case 0 => t' == t.(at := 1)
       case 1 =>
         if c.key !in d.deploymentByKey then t' == t.(at := 2, replay := None)
         else
           var id := d.deploymentByKey[c.key];
           id in d.deployments && d.deployments[id].command.request == c.request &&
           Outstanding(d.deployments[id].status)
           && t' == t.(at := 2, replay := Some(d.deployments[id]))
       case 2 =>
         && c.flight in d.flights && d.flights[c.flight].status.Planned? && CommandFits(c, d.flights[c.flight])
         && t' == t.(at := 3, row := d.flights[c.flight])
       case 3 => t' == t.(at := 4)
       case 4 => t' == t.(at := 5)
       case 5 => FlightBindingCurrent(d, t.row) && t' == t.(at := 6)
       case 6 => !AircraftFlying(d, t.row.aircraft) && t' == t.(at := 7)
       case 7 => MissionIsCurrent(d, c.flight, c.mission, c.digest) && t' == t.(at := 8)
       case 8 => NoneHolds(d, t.row.aircraft, ReplayId(t.replay)) && t' == t.(at := 9)
       case 9 =>
         && t.replay.None? && c.key !in d.deploymentByKey
         && next > d.nextOrder && t' == t.(at := 10, order := next)
       case _ => false
  }

  ghost predicate RunsStart(d: Data, t: Starting, t': Starting)
  {
    match t.at
    case 0 =>
      t.flight.id in d.flights && d.flights[t.flight.id].status.Planned? &&
      t' == t.(at := 1, row := d.flights[t.flight.id])
    case 1 => t' == t.(at := 2)
    case 2 => NoOtherFlying(d, t.row) && t' == t.(at := 3)
    case 3 => t' == t.(at := 4)
    case 4 => TopActive(d, t.row) && t' == t.(at := 5)
    case 5 =>
      MissionIsCurrent(d, t.flight.id, t'.mission, t'.digest) &&
      t' == t.(at := 6, mission := t'.mission, digest := t'.digest)
    case 6 => NoneHolds(d, t.row.aircraft, None) && t' == t.(at := 7)
    case 7 => NewestServes(d, t.row.aircraft, t.flight.id, t.mission, t.digest) && t' == t.(at := 8)
    case _ => false
  }

  ghost predicate RunsImport(d: Data, t: Importing, t': Importing)
  {
    var m := t.draft;
    match t.at
    case 0 => t' == t.(at := 1)
    case 1 => m.key !in d.missionByKey && t' == t.(at := 2)
    case 2 =>
      && m.flight in d.flights && d.flights[m.flight].status.Planned? && MissionFits(m, d.flights[m.flight])
      && t' == t.(at := 3, row := d.flights[m.flight])
    case 3 => t' == t.(at := 4)
    case 4 => FlightBindingCurrent(d, t.row) && t' == t.(at := 5)
    case 5 => !FlightFenced(d, m.flight) && t' == t.(at := 6)
    case 6 => m.key !in d.missionByKey && t' == t.(at := 7)
    case 7 => IsNextVersion(d, m.flight, t'.version) && t' == t.(at := 8, version := t'.version)
    case _ => false
  }

  ghost predicate RunsEdit(d: Data, t: Editing, t': Editing)
  {
    match t.at
    case 0 => t' == t.(at := 1)
    case 1 => t' == t.(at := 2)
    case 2 => (t.edit.ActivateEdit? ==> !OtherActive(d, t.edit.intent)) && t' == t.(at := 3)
    case 3 => !IntentFenced(d, EditId(t.edit)) && t' == t.(at := 4)
    case 4 => EditGuard(d, t.edit) && t' == t.(at := 5)
    case _ => false
  }

  predicate Ready(t: Tx) {
    match t
    case DeployTx(x) => x.at == 10
    case StartTx(x) => x.at == 8
    case ImportTx(x) => x.at == 8
    case EditTx(x) => x.at == 5
  }

  /** The admission an idempotent replay is answered with, the transaction being rolled back: a terminal record as soon
      as it is read, an outstanding one after every check. */
  function Replayed(d: Data, x: Deploying): Option<Deployment> {
    var key := x.dep.command.key;
    if x.at == 9 then x.replay
    else if x.at == 1 && key in d.deploymentByKey && d.deploymentByKey[key] in d.deployments then
      var stored := d.deployments[d.deploymentByKey[key]];
      if stored.command.request == x.dep.command.request && !Outstanding(stored.status) then Some(stored) else None
    else None
  }

  /** The call that waits for this admission goes on with its outcome. */
  function Told(calls: map<nat, Call>, t: Tx, answer: Call): map<nat, Call> {
    if t.DeployTx? && t.deploying.caller in calls && calls[t.deploying.caller] == Planning(t.deploying.dep)
    then calls[t.deploying.caller := answer] else calls
  }

  /** Where a committed admission takes its call; the answer to a commit can be lost. */
  function AfterCommit(t: Tx, heard: bool): Call {
    if t.DeployTx? && heard then AfterAdmission(t.deploying.dep, DeploymentOk(t.deploying.dep.(revision := 0)))
      else Abandoned
  }

  /** What becomes visible when the transaction commits. */
  ghost function Committed(d: Data, t: Tx): Data {
    match t
    case DeployTx(x) => Inserted(d, x.dep.(revision := 0), x.order)
    case StartTx(x) => d.(flights := d.flights[x.flight.id := x.flight])
    case ImportTx(x) => AddMission(d, x.draft.(version := x.version))
    case EditTx(x) => Atomic(d, x.edit).0
  }

  function Inserted(d: Data, dep: Deployment, order: nat): Data {
    var id := dep.command.deployment;
    d.(deployments := d.deployments[id := dep], deploymentByKey := d.deploymentByKey[dep.command.key := id],
       creationOrder := d.creationOrder[id := order])
  }

  datatype PgStep =
    | Open(n: nat, tx: Tx)
    | Statement(n: nat)
    | Abort(n: nat)
    | AnswerReplay(n: nat)
    | Commit(n: nat, heard: bool)
    | BeginCall(caller: nat, mission: Mission, ids: Fresh, key: Id, now: int)
    | StepCall(caller: nat, event: Event)
    | InsertFlight(flight: Flight)

  ghost predicate MayOpen(s: Pg, fleet: Fleet, t: Tx) {
    match t
    case DeployTx(x) =>
      && x.at == 0 && x.caller in s.calls && s.calls[x.caller] == Planning(x.dep)
      && NotOpened(s, x.caller) && FreshDeployment(s, x.dep.command.deployment)
    case StartTx(x) =>
      x.at == 0 && x.flight.status.Flying? && x.flight.id in s.d.flights && SameRow(x.flight, s.d.flights[x.flight.id])
    case ImportTx(x) => x.at == 0 && FreshMission(s, x.draft.id)
    case EditTx(x) => x.at == 0 && ValidEdit(x.edit)
  }

  predicate SameRow(a: Flight, b: Flight) { a == b.(status := a.status, startedAt := a.startedAt) }

  ghost predicate NotOpened(s: Pg, caller: nat) {
    forall m :: m in s.txs && s.txs[m].DeployTx? ==> s.txs[m].deploying.caller != caller
  }

  /** Identities are random: no record and no other open transaction has the same one. */
  ghost predicate FreshDeployment(s: Pg, id: Id) {
    id !in s.d.deployments && forall m :: m in s.txs && s.txs[m].DeployTx? ==>
      s.txs[m].deploying.dep.command.deployment != id
  }

  ghost predicate FreshMission(s: Pg, id: Id) {
    id !in s.d.missions && forall m :: m in s.txs && s.txs[m].ImportTx? ==> s.txs[m].importing.draft.id != id
  }

  ghost predicate PgNext(fleet: Fleet, s: Pg, step: PgStep, s': Pg) {
    match step
    case Open(n, t) => n !in s.txs && MayOpen(s, fleet, t) && s' == s.(txs := s.txs[n := t])
    case Statement(n) =>
      && n in s.txs && n in s'.txs && Runs(s.d, s.txs[n], s'.txs[n], s'.d.nextOrder)
      && (NextLock(s.txs[n]).Some? ==> Free(s, n, NextLock(s.txs[n]).value))
      && s' == s.(d := s.d.(nextOrder := s'.d.nextOrder), txs := s.txs[n := s'.txs[n]])
    case Abort(n) => n in s.txs && s' == s.(txs := s.txs - {n}, calls := Told(s.calls, s.txs[n], Abandoned))
    case AnswerReplay(n) =>
      && n in s.txs && s.txs[n].DeployTx?
      && var x := s.txs[n].deploying;
         Replayed(s.d, x).Some? &&
         s' == s.(txs := s.txs - {n}, calls :=
           Told(s.calls, s.txs[n], AfterAdmission(x.dep, DeploymentOk(Replayed(s.d, x).value))))
    case Commit(n, heard) =>
      && n in s.txs && Ready(s.txs[n])
      && s' == s.(d := Committed(s.d, s.txs[n]), txs := s.txs - {n},
         calls := Told(s.calls, s.txs[n], AfterCommit(s.txs[n], heard)))
    case BeginCall(n, m, ids, key, now) =>
      && n !in s.calls && O.MayBegin(s.d, fleet, m)
      && var f := s.d.flights[m.flight];
         s' == s.(calls := s.calls[n := Planning(NewDeployment(m, f, fleet[f.aircraft], ids, key, now))])
    case StepCall(n, e) =>
      && n in s.calls && n in s'.calls && !O.Admits(s.calls[n], e)
      && Advances(s.d, s.calls[n], s.sent, e, s'.d, s'.calls[n], s'.sent)
      && s' == s.(d := s'.d, calls := s.calls[n := s'.calls[n]], sent := s'.sent)
    case InsertFlight(f) => f.id !in s.d.flights && f.status.Planned? && s' == s.(d := CreateFlight(s.d, f).0)
  }
}
