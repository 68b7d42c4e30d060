/** The lifecycle of operational-intent versions: what every service transition keeps. */
module IntentLifecycle {
  import opened Domain
  import opened StoreState

  predicate Editable(status: IntentStatus) { status.Draft? || status.Submitted? || status.Review? }

  predicate Effective(status: IntentStatus) { status.Accepted? || status.Active? }

  /** Versions count up from 1 without gaps; only the newest may be editable or active; an intent has at
      most one effective version; an aircraft has at most one active intent. */
  ghost predicate Lifecycle(intents: map<IntentKey, Intent>) {
    && KeyedIntents(intents)
    && Contiguous(intents)
    && ClosedBehindNewest(intents)
    && OneEffective(intents)
    && OneActive(intents)
  }

  ghost predicate Contiguous(intents: map<IntentKey, Intent>) {
    && (forall k :: k in intents ==> k.1 >= 1)
    && forall k, v :: k in intents && 1 <= v <= k.1 ==> (k.0, v) in intents
  }

  ghost predicate ClosedBehindNewest(intents: map<IntentKey, Intent>) {
    forall j, k :: j in intents && k in intents && j.0 == k.0 && j.1 < k.1 ==>
      !Editable(intents[j].status) && !intents[j].status.Active?
  }

  ghost predicate OneEffective(intents: map<IntentKey, Intent>) {
    forall j, k ::
      j in intents && k in intents && j.0 == k.0 && Effective(intents[j].status) && Effective(intents[k].status) ==>
      j == k
  }

  ghost predicate OneActive(intents: map<IntentKey, Intent>) {
    forall j, k :: j in intents && k in intents && BothActive(intents[j], intents[k]) ==> j == k
  }

  predicate BothActive(a: Intent, b: Intent) {
    a.aircraft == b.aircraft && a.status.Active? && b.status.Active?
  }

  /** An equal revision means an equal record. */
  predicate IntentEvolves(a: Intent, b: Intent) { a == b || a.revision < b.revision }

  ghost predicate IntentsEvolve(before: map<IntentKey, Intent>, after: map<IntentKey, Intent>) {
    forall k :: k in before ==> k in after && IntentEvolves(before[k], after[k])
  }

  ghost predicate OtherIntentsKept(before: map<IntentKey, Intent>, after: map<IntentKey, Intent>, id: Id) {
    forall k :: k in before + after && k.0 != id ==> k in before && k in after && after[k] == before[k]
  }

  /** What every successful write of the intent `id` keeps. */
  ghost predicate LifecycleStep(before: map<IntentKey, Intent>, after: map<IntentKey, Intent>, id: Id) {
    Lifecycle(after) && IntentsEvolve(before, after) && OtherIntentsKept(before, after, id)
  }

  /** `after` is `m` with the newest version of one intent written, and possibly older accepted versions closed. */
  ghost predicate WritesNewest(m: map<IntentKey, Intent>, written: Intent, after: map<IntentKey, Intent>) {
    var key := (written.id, written.version);
    && after.Keys == m.Keys + {key}
    && after[key] == written
    && (forall k :: k in m && k.0 == key.0 ==> k.1 <= key.1)
    && (forall k :: k in m && k != key ==> after[k] == m[k] || ClosesOlder(m[k], written, after[k]))
  }

  predicate ClosesOlder(before: Intent, written: Intent, after: Intent) {
    && before.id == written.id && before.version < written.version && before.status.Accepted?
    && after == before.(status := after.status, revision := before.revision + 1)
    && !Editable(after.status) && !Effective(after.status)
  }

  /** The version written exists already, or directly follows one that is closed for editing. */
  ghost predicate FollowsClosed(m: map<IntentKey, Intent>, written: Intent) {
    || (written.id, written.version) in m
    || (written.version == 1 && forall k :: k in m ==> k.0 != written.id)
    || ((written.id, written.version - 1) in m
        && !Editable(m[(written.id, written.version - 1)].status)
        && !m[(written.id, written.version - 1)].status.Active?)
  }

  lemma WriteKeepsLifecycle(m: map<IntentKey, Intent>, written: Intent, after: map<IntentKey, Intent>)
    requires Lifecycle(m) && WritesNewest(m, written, after) && FollowsClosed(m, written)
    requires (written.id, written.version) in m ==> m[(written.id, written.version)].revision < written.revision
    requires Effective(written.status) ==>
      forall k :: k in after && k.0 == written.id && Effective(after[k].status) ==> k.1 == written.version
    requires written.status.Active? ==>
      forall k :: k in m && m[k].aircraft == written.aircraft && m[k].status.Active? ==>
        k == (written.id, written.version)
    ensures LifecycleStep(m, after, written.id)
  {
    WriteKeepsContiguous(m, written, after);
    WriteKeepsClosed(m, written, after);
    WriteKeepsOne(m, written, after);
    WriteEvolves(m, written, after);
  }

  lemma WriteEvolves(m: map<IntentKey, Intent>, written: Intent, after: map<IntentKey, Intent>)
    requires KeyedIntents(m) && WritesNewest(m, written, after)
    requires (written.id, written.version) in m ==> m[(written.id, written.version)].revision < written.revision
    ensures IntentsEvolve(m, after) && OtherIntentsKept(m, after, written.id)
  {
  }

  lemma WriteKeepsContiguous(m: map<IntentKey, Intent>, written: Intent, after: map<IntentKey, Intent>)
    requires KeyedIntents(m) && Contiguous(m) && WritesNewest(m, written, after) && FollowsClosed(m, written)
    ensures KeyedIntents(after) && Contiguous(after)
  {
  }

  lemma WriteKeepsClosed(m: map<IntentKey, Intent>, written: Intent, after: map<IntentKey, Intent>)
    requires KeyedIntents(m) && Contiguous(m) && ClosedBehindNewest(m)
    requires WritesNewest(m, written, after) && FollowsClosed(m, written)
    ensures ClosedBehindNewest(after)
  {
  }

  lemma WriteKeepsOne(m: map<IntentKey, Intent>, written: Intent, after: map<IntentKey, Intent>)
    requires KeyedIntents(m) && OneEffective(m) && OneActive(m) && WritesNewest(m, written, after)
    requires Effective(written.status) ==>
      forall k :: k in after && k.0 == written.id && Effective(after[k].status) ==> k.1 == written.version
    requires written.status.Active? ==>
      forall k :: k in m && m[k].aircraft == written.aircraft && m[k].status.Active? ==>
        k == (written.id, written.version)
    ensures OneEffective(after) && OneActive(after)
  {
    WriteKeepsOneEffective(m, written, after) by { hide OneActive; }
    WriteKeepsOneActive(m, written, after) by { hide OneEffective; }
    hide OneEffective, OneActive, WritesNewest;
  }

  lemma WriteKeepsOneEffective(m: map<IntentKey, Intent>, written: Intent, after: map<IntentKey, Intent>)
    requires KeyedIntents(m) && OneEffective(m) && WritesNewest(m, written, after)
    requires Effective(written.status) ==>
      forall k :: k in after && k.0 == written.id && Effective(after[k].status) ==> k.1 == written.version
    ensures OneEffective(after)
  {
  }

  lemma WriteKeepsOneActive(m: map<IntentKey, Intent>, written: Intent, after: map<IntentKey, Intent>)
    requires KeyedIntents(m) && OneActive(m) && WritesNewest(m, written, after)
    requires written.status.Active? ==>
      forall k :: k in m && m[k].aircraft == written.aircraft && m[k].status.Active? ==>
        k == (written.id, written.version)
    ensures OneActive(after)
  {
  }

  /** The stored record `before` and its replacement by Submit, Complete or Cancel. */
  predicate Transitions(before: Intent, next: IntentStatus) {
    match next
    case Submitted => before.status.Draft?
    case Complete => before.status.Active?
    case Canceled => Editable(before.status) || Effective(before.status)
    case _ => false
  }

  lemma CreateKeepsLifecycle(intents: map<IntentKey, Intent>, intent: Intent)
    requires Lifecycle(intents) && intent.version == 1 && intent.status.Draft? && (intent.id, 1) !in intents
    ensures LifecycleStep(intents, WithWritten(intents, intent, 0), intent.id)
  {
    assert forall k :: k in intents ==> k.0 != intent.id;
    hide Contiguous, ClosedBehindNewest, OneEffective, OneActive;
    WriteKeepsLifecycle(intents, intent.(revision := 0), WithWritten(intents, intent, 0));
  }

  ghost predicate IsNewest(intents: map<IntentKey, Intent>, i: Intent) {
    && (i.id, i.version) in intents && intents[(i.id, i.version)] == i
    && forall k :: k in intents && k.0 == i.id ==> k.1 <= i.version
  }

  lemma TransitionKeepsLifecycle(intents: map<IntentKey, Intent>, before: Intent, next: IntentStatus)
    requires Lifecycle(intents) && IsNewest(intents, before) && Transitions(before, next)
    ensures LifecycleStep(intents, UpdatedIntents(intents, before.(status := next), before.revision), before.id)
  {
    var written := before.(status := next, revision := before.revision + 1);
    var after := UpdatedIntents(intents, before.(status := next), before.revision);
    assert KeyedIntents(intents);
    UpdateWritesNewest(intents, before, next);
    assert intents[(before.id, before.version)] == before;
    hide Lifecycle, LifecycleStep, UpdatedIntents, WritesNewest, IsNewest;
    WriteKeepsLifecycle(intents, written, after);
  }

  lemma UpdateWritesNewest(intents: map<IntentKey, Intent>, before: Intent, next: IntentStatus)
    requires KeyedIntents(intents) && IsNewest(intents, before)
    ensures WritesNewest(intents, before.(status := next, revision := before.revision + 1),
                         UpdatedIntents(intents, before.(status := next), before.revision))
  {
  }

  lemma AcceptKeepsLifecycle(intents: map<IntentKey, Intent>, before: Intent)
    requires Lifecycle(intents) && IsNewest(intents, before) && (before.status.Submitted? || before.status.Review?)
    ensures LifecycleStep(intents, AcceptedIntents(intents, before.(status := Accepted), before.revision), before.id)
  {
    var written := before.(status := Accepted, revision := before.revision + 1);
    var after := AcceptedIntents(intents, before.(status := Accepted), before.revision);
    assert KeyedIntents(intents) && ClosedBehindNewest(intents) && intents[(before.id, before.version)] == before;
    AcceptWritesNewest(intents, before);
    hide Lifecycle, LifecycleStep, AcceptedIntents, WritesNewest, IsNewest, ClosedBehindNewest;
    WriteKeepsLifecycle(intents, written, after);
  }

  lemma AcceptWritesNewest(intents: map<IntentKey, Intent>, before: Intent)
    requires KeyedIntents(intents) && ClosedBehindNewest(intents) && IsNewest(intents, before)
    ensures var after := AcceptedIntents(intents, before.(status := Accepted), before.revision);
      && WritesNewest(intents, before.(status := Accepted, revision := before.revision + 1), after)
      && forall k :: k in after && k.0 == before.id && Effective(after[k].status) ==> k.1 == before.version
  {
  }

  lemma ActivateKeepsLifecycle(intents: map<IntentKey, Intent>, before: Intent)
    requires Lifecycle(intents) && IsNewest(intents, before) && before.status.Accepted?
    requires forall k :: k in intents && intents[k].aircraft == before.aircraft ==> !intents[k].status.Active?
    ensures LifecycleStep(intents, UpdatedIntents(intents, before.(status := Active), before.revision), before.id)
  {
    var written := before.(status := Active, revision := before.revision + 1);
    var after := UpdatedIntents(intents, before.(status := Active), before.revision);
    UpdateWritesNewest(intents, before, Active);
    assert forall k :: k in after && k.0 == written.id && Effective(after[k].status) ==> k.1 == written.version;
    hide Lifecycle, UpdatedIntents;
    WriteKeepsLifecycle(intents, written, after);
  }

  /** What ModifyIntent writes: an accepted version gets a draft successor, an editable one is rewritten. */
  function Modified(before: Intent, details: Id): Intent {
    if before.status.Accepted? then before.(version := before.version + 1, status := Draft, details := details)
    else before.(details := details)
  }

  predicate Modifiable(status: IntentStatus) { status.Draft? || status.Submitted? || status.Accepted? }

  lemma ModifyKeepsLifecycle(intents: map<IntentKey, Intent>, before: Intent, details: Id)
    requires Lifecycle(intents) && IsNewest(intents, before) && Modifiable(before.status)
    ensures LifecycleStep(intents, ReplacedIntents(intents, before.version, before.revision, Modified(before, details)),
      before.id)
  {
    var next := Modified(before, details);
    var written := next.(revision := if next.version == before.version then before.revision + 1 else 0);
    var after := ReplacedIntents(intents, before.version, before.revision, next);
    assert WritesNewest(intents, written, after);
    hide Lifecycle, ReplacedIntents;
    WriteKeepsLifecycle(intents, written, after);
  }
}
