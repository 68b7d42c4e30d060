/** How one service call moves the newest version of an intent, and how the requested publication state stays tied
    to it. */
module IntentShifts {
  import opened Domain
  import opened StoreState
  import L = IntentLifecycle
  import Operations

  /** The moves of the newest version `before`, or of an intent that does not exist yet. */
  predicate Shifts(before: Option<Intent>, after: Intent) {
    match before
    case None => after.version == 1 && after.status.Draft?
    case Some(b) =>
      && after.id == b.id
      && if after.version == b.version then
           && after.revision > b.revision
           && (|| (L.Editable(b.status) && after.status == b.status)
               || (b.status.Draft? && after.status.Submitted?)
               || ((b.status.Submitted? || b.status.Review?) && after.status.Accepted?)
               || (b.status.Accepted? && after.status.Active?)
               || ((L.Editable(b.status) || L.Effective(b.status)) &&
                 (after.status.Complete? || after.status.Canceled?)))
         else after.version == b.version + 1 && b.status.Accepted? && after.status.Draft?
  }

  predicate Over(status: IntentStatus) { !L.Editable(status) && !L.Effective(status) }

  ghost predicate NoVersion(intents: map<IntentKey, Intent>, id: Id) { forall v :: (id, v) !in intents }

  /** The call writes the newest version of `after.id` in one of these moves; unless that accepts or ends the intent,
      every other record stays. */
  ghost predicate IntentShift(intents: map<IntentKey, Intent>, intents': map<IntentKey, Intent>, before: Option<Intent>,
                              after: Intent) {
    && Shifts(before, after)
    && (before.Some? ==> L.IsNewest(intents, before.value))
    && (before.None? ==> NoVersion(intents, after.id))
    && L.WritesNewest(intents, after, intents')
    && L.OtherIntentsKept(intents, intents', after.id)
    && (L.Editable(after.status) || after.status.Active? ==>
          forall k :: k in intents && k != (after.id, after.version) ==> k in intents' && intents'[k] == intents[k])
  }

  /** The intents stay as they are, or one intent shifts. */
  ghost predicate IntentsStep(intents: map<IntentKey, Intent>, intents': map<IntentKey, Intent>) {
    intents' == intents || exists before, after :: IntentShift(intents, intents', before, after)
  }

  /* ---- every service call is such a move ---- */

  lemma TransitionShifts(intents: map<IntentKey, Intent>, i: Intent, next: IntentStatus)
    requires KeyedIntents(intents) && L.IsNewest(intents, i) && L.Transitions(i, next)
    ensures IntentShift(intents, UpdatedIntents(intents, i.(status := next), i.revision), Some(i),
                        i.(status := next, revision := i.revision + 1))
  {
    L.UpdateWritesNewest(intents, i, next);
  }

  lemma ActivationShifts(intents: map<IntentKey, Intent>, i: Intent)
    requires KeyedIntents(intents) && L.IsNewest(intents, i) && i.status.Accepted?
    ensures IntentShift(intents, UpdatedIntents(intents, i.(status := Active), i.revision), Some(i),
                        i.(status := Active, revision := i.revision + 1))
  {
    L.UpdateWritesNewest(intents, i, Active);
  }

  lemma AcceptanceShifts(intents: map<IntentKey, Intent>, i: Intent)
    requires KeyedIntents(intents) && L.ClosedBehindNewest(intents) && L.IsNewest(intents, i)
    requires (i.status.Submitted? || i.status.Review?)
    ensures IntentShift(intents, AcceptedIntents(intents, i.(status := Accepted), i.revision), Some(i),
                        i.(status := Accepted, revision := i.revision + 1))
  {
    L.AcceptWritesNewest(intents, i);
  }

  lemma ModificationShifts(intents: map<IntentKey, Intent>, i: Intent, details: Id)
    requires KeyedIntents(intents) && L.IsNewest(intents, i) && L.Modifiable(i.status)
    ensures var next := L.Modified(i, details);
      IntentShift(intents, ReplacedIntents(intents, i.version, i.revision, next), Some(i),
                  next.(revision := if next.version == i.version then i.revision + 1 else 0))
  {
  }

  lemma CreationShifts(intents: map<IntentKey, Intent>, intent: Intent)
    requires L.Lifecycle(intents) && intent.version == 1 && intent.status.Draft? && (intent.id, 1) !in intents
    ensures IntentShift(intents, WithWritten(intents, intent, 0), None, intent.(revision := 0))
  {
    assert forall k :: k in intents ==> k.0 != intent.id;
  }

  /** Recording a volume shifts nothing. */
  lemma VolumeQuiet(d: Data, volume: Volume)
    ensures RecordVolume(d, volume).0 == d ||
      RecordVolume(d, volume).0 == d.(volumes := d.volumes[VolumeKeyOf(volume) := volume])
  {
    hide IntentFenced;
  }

  /** A shift always changes the intents. */
  lemma ShiftChanges(intents: map<IntentKey, Intent>, intents': map<IntentKey, Intent>, before: Option<Intent>,
                     after: Intent)
    requires IntentShift(intents, intents', before, after)
    ensures intents' != intents
  {
    assert intents'[(after.id, after.version)] == after;
    assert before.Some? ==> intents[(before.value.id, before.value.version)] == before.value;
  }

  /* ---- what a caller's snapshot knows ---- */

  /** A snapshot that is the newest record after a step was so before, and no record of its intent moved. */
  lemma StillNewest(d: Data, intents': map<IntentKey, Intent>, seen: set<Intent>, c: Intent)
    requires Operations.SeenOk(d, seen) && c in seen && KeyedIntents(d.intents) && IntentsStep(d.intents, intents')
    requires L.IsNewest(intents', c)
    ensures L.IsNewest(d.intents, c)
    ensures forall v :: (c.id, v) in d.intents <==> (c.id, v) in intents'
    ensures forall v :: (c.id, v) in d.intents ==> intents'[(c.id, v)] == d.intents[(c.id, v)]
  {
    if intents' != d.intents {
      var before, after :| IntentShift(d.intents, intents', before, after);
      assert L.IntentEvolves(c, d.intents[(c.id, c.version)]);
      assert intents'[(after.id, after.version)] == after;
      assert before.Some? ==> d.intents[(before.value.id, before.value.version)] == before.value;
      assert after.id != c.id ==> forall v :: (c.id, v) in d.intents + intents' ==>
        (c.id, v) in d.intents && (c.id, v) in intents';
    }
  }

  /** A shifted intent leaves every earlier snapshot of it behind. */
  lemma ShiftElsewhere(d: Data, intents': map<IntentKey, Intent>, seen: set<Intent>, c: Intent, before: Option<Intent>,
                       after: Intent)
    requires Operations.SeenOk(d, seen) && c in seen && KeyedIntents(d.intents)
    requires IntentShift(d.intents, intents', before, after)
    requires L.IsNewest(intents', c)
    ensures after.id != c.id
  {
    StillNewest(d, intents', seen, c);
    assert L.IntentEvolves(c, d.intents[(c.id, c.version)]);
    assert intents'[(after.id, after.version)] == after;
    assert before.Some? ==> d.intents[(before.value.id, before.value.version)] == before.value;
  }

  /* ---- the requested state and the newest version ---- */

  /** A withdrawal is wanted only of an ended intent. An activation is wanted only of the published version, while that
      is the effective one, perhaps behind an editable successor. */
  ghost predicate TiedTo(intents: map<IntentKey, Intent>, p: Publication, newest: Intent) {
    && (p.desiredState.WithdrawnState? ==> Over(newest.status))
    && (p.desiredState.ActivatedState? ==>
          && p.publishedVersion == p.desiredVersion
          && (|| (newest.version == p.desiredVersion && L.Effective(newest.status))
              || (L.Editable(newest.status) && newest.version == p.desiredVersion + 1 &&
                StoredAccepted(intents, newest.id, p.desiredVersion))))
  }

  ghost predicate StoredAccepted(intents: map<IntentKey, Intent>, id: Id, version: int) {
    (id, version) in intents && intents[(id, version)].status.Accepted?
  }

  ghost predicate Tied(intents: map<IntentKey, Intent>, p: Publication) {
    && (p.intent, 1) in intents
    && forall newest :: L.IsNewest(intents, newest) && newest.id == p.intent ==> TiedTo(intents, p, newest)
  }

  /** Moves of an intent that neither end nor accept it keep its publication tied. */
  lemma ShiftKeepsTied(intents: map<IntentKey, Intent>, intents': map<IntentKey, Intent>, before: Option<Intent>,
                       after: Intent, p: Publication)
    requires KeyedIntents(intents) && Tied(intents, p) && IntentShift(intents, intents', before, after)
    requires after.id == p.intent ==> L.Editable(after.status) || after.status.Active?
    ensures Tied(intents', p)
  {
    forall newest | L.IsNewest(intents', newest) && newest.id == p.intent ensures TiedTo(intents', p, newest) {
      if after.id == p.intent {
        assert newest == after;
        if before.Some? {
          assert TiedTo(intents, p, before.value);
        }
      } else {
        assert L.IsNewest(intents, newest);
        assert TiedTo(intents, p, newest);
      }
    }
  }

  /** An acceptance finds no requested withdrawal, and afterwards the acceptance itself may be requested. */
  lemma AcceptanceMayRequest(intents: map<IntentKey, Intent>, intents': map<IntentKey, Intent>, before: Intent,
                             after: Intent, p: Publication)
    requires KeyedIntents(intents) && Tied(intents, p) && IntentShift(intents, intents', Some(before), after)
    requires after.id == p.intent
    ensures !p.desiredState.WithdrawnState?
  {
    assert TiedTo(intents, p, before);
  }

  /** A request for the accepted newest version, for a published accepted version behind an editable one, or for the
      withdrawal of an ended intent leaves the publication tied. */
  lemma RequestTied(intents: map<IntentKey, Intent>, p: Publication, newest: Intent)
    requires KeyedIntents(intents) && (p.intent, 1) in intents && L.IsNewest(intents, newest) && newest.id == p.intent
    requires match p.desiredState
      case WithdrawnState => Over(newest.status)
      case ActivatedState =>
        newest.status.Accepted? && newest.version == p.desiredVersion && p.publishedVersion == p.desiredVersion
      case _ => true
    ensures Tied(intents, p)
  {
    forall other | L.IsNewest(intents, other) && other.id == p.intent ensures TiedTo(intents, p, other) {
      NewestUnique(intents, newest, other);
    }
  }

  lemma NewestUnique(intents: map<IntentKey, Intent>, a: Intent, b: Intent)
    requires L.IsNewest(intents, a) && L.IsNewest(intents, b) && a.id == b.id
    ensures a == b
  {
  }
}
