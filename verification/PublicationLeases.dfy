/** What the revision of a claimed publication is worth to the worker that holds it, whatever store calls come
    between. */
module PublicationLeases {
  import opened Domain
  import opened StoreState

  /** Every store call that can change a publication. */
  datatype Call =
    | Request(request: Publication)
    | Claim(intent: Id, now: int, leaseUntil: int)
    | Renew(intent: Id, expected: int, leaseUntil: int)
    | Update(publication: Publication, expected: int)
    | Confirm(publication: Publication, expected: int, added: seq<Notification>)

  function After(d: Data, call: Call): Data {
    match call
    case Request(request) => RequestPublication(d, request)
    case Claim(intent, now, leaseUntil) => ClaimPublication(d, intent, now, leaseUntil).0
    case Renew(intent, expected, leaseUntil) => RenewLease(d, intent, expected, leaseUntil).0
    case Update(publication, expected) => UpdatePublication(d, publication, expected).0
    case Confirm(publication, expected, added) => ConfirmPublication(d, publication, expected, added).0
  }

  function AfterAll(d: Data, calls: seq<Call>): Data {
    if calls == [] then d else After(AfterAll(d, calls[..|calls| - 1]), calls[|calls| - 1])
  }

  /** The same record, but for the end of its lease. */
  predicate Untouched(a: Publication, b: Publication) { b == a.(leaseUntil := b.leaseUntil) }

  ghost predicate Raises(before: map<Id, Publication>, after: map<Id, Publication>, id: Id)
    requires id in before
  {
    id in after && (Untouched(before[id], after[id]) || before[id].revision < after[id].revision)
  }

  lemma WriteRaises(before: map<Id, Publication>, written: Publication, at: Id, id: Id)
    requires id in before && (at in before ==> Untouched(before[at], written) || before[at].revision < written.revision)
    ensures Raises(before, before[at := written], id)
  {
  }

  ghost predicate WriteOf(d: Data, at: Id, written: Publication) {
    at in d.publications ==> Untouched(d.publications[at], written) || d.publications[at].revision < written.revision
  }

  /** A call leaves the publications alone or writes one of them. */
  ghost predicate Writes(d: Data, publications: map<Id, Publication>) {
    || publications == d.publications
    || exists at, written :: publications == d.publications[at := written] && WriteOf(d, at, written)
  }

  lemma CallWrites(d: Data, call: Call)
    ensures Writes(d, After(d, call).publications)
  {
    match call
    case Request(request) => WritesOne(d, request.intent, Requested(StoredPublication(d, request.intent), request));
    case Claim(intent, now, leaseUntil) =>
      if intent in d.publications { WritesOne(d, intent, Claimed(d.publications[intent], leaseUntil)); }
    case Renew(intent, expected, leaseUntil) =>
      if intent in d.publications { WritesOne(d, intent, d.publications[intent].(leaseUntil := Some(leaseUntil))); }
    case Update(publication, expected) => UpdateWrites(d, publication, expected);
    case Confirm(publication, expected, added) =>
      UpdateWrites(d, publication, expected);
      ConfirmWrites(d, publication, expected, added);
    hide Writes, UpdatePublication, ConfirmPublication, Requested, Claimed;
  }

  lemma WritesOne(d: Data, at: Id, written: Publication)
    requires WriteOf(d, at, written)
    ensures Writes(d, d.publications[at := written])
  {
  }

  lemma UpdateWrites(d: Data, publication: Publication, expected: int)
    ensures Writes(d, UpdatePublication(d, publication, expected).0.publications)
  {
    hide Writes;
    var written := Written(publication, expected);
    var r := UpdatePublication(d, publication, expected);
    assert r == (d, NotFound) || r == (d, VersionConflict) ||
           (r == (d.(publications := d.publications[publication.intent := written]), Done)
            && publication.intent in d.publications && d.publications[publication.intent].revision == expected);
    hide UpdatePublication;
    if r.1.Done? {
      WritesOne(d, publication.intent, written);
    } else {
      NoWrite(d);
    }
  }

  lemma NoWrite(d: Data)
    ensures Writes(d, d.publications)
  {
  }

  lemma ConfirmWrites(d: Data, publication: Publication, expected: int, added: seq<Notification>)
    ensures ConfirmPublication(d, publication, expected, added).0.publications ==
      UpdatePublication(d, publication, expected).0.publications
  {
    hide Enqueue, UpdatePublication;
  }

  lemma CallRaises(d: Data, call: Call, id: Id)
    requires id in d.publications
    ensures Raises(d.publications, After(d, call).publications, id)
  {
    CallWrites(d, call);
    hide After;
    if After(d, call).publications != d.publications {
      var at, written :| After(d, call).publications == d.publications[at := written] && WriteOf(d, at, written);
      WriteRaises(d.publications, written, at, id);
    }
  }

  lemma {:induction false} CallsRaise(d: Data, calls: seq<Call>, id: Id)
    requires id in d.publications
    ensures Raises(d.publications, AfterAll(d, calls).publications, id)
  {
    if calls != [] {
      CallsRaise(d, calls[..|calls| - 1], id);
      CallRaises(AfterAll(d, calls[..|calls| - 1]), calls[|calls| - 1], id);
    }
  }

  /** A worker's write, closing or renewal at the revision it read goes through exactly when, since then, nothing but
      renewals touched the record. */
  lemma WriteMeansUntouched(d: Data, calls: seq<Call>, id: Id, written: Publication, added: seq<Notification>,
                            leaseUntil: int)
    requires id in d.publications && written.intent == id
    ensures var d', read := AfterAll(d, calls), d.publications[id].revision;
      && id in d'.publications
      && (UpdatePublication(d', written, read).1.Done? <==> Untouched(d.publications[id], d'.publications[id]))
      && (ConfirmPublication(d', written, read, added).1.Done? <==> Untouched(d.publications[id], d'.publications[id]))
      && (RenewLease(d', id, read, leaseUntil).1.Done? <==> Untouched(d.publications[id], d'.publications[id]))
  {
    CallsRaise(d, calls, id);
    hide After, Enqueue;
  }

  /** A claim, and likewise a request, shuts out every earlier holder for good: whatever calls follow, none of its
      writes and renewals goes through, and none leaves a trace. */
  lemma EarlierHoldersShutOut(d: Data, taken: Call, calls: seq<Call>, id: Id, read: int, written: Publication,
                              added: seq<Notification>, leaseUntil: int)
    requires id in d.publications && written.intent == id && read <= d.publications[id].revision
    requires match taken
      case Claim(intent, now, until) => intent == id && ClaimPublication(d, id, now, until).1.ClaimOk?
      case Request(request) => request.intent == id
      case _ => false
    ensures var d' := AfterAll(After(d, taken), calls);
      && UpdatePublication(d', written, read) == (d', VersionConflict)
      && ConfirmPublication(d', written, read, added) == (d', VersionConflict)
      && RenewLease(d', id, read, leaseUntil) == (d', VersionConflict)
  {
    assert id in After(d, taken).publications &&
        After(d, taken).publications[id].revision == d.publications[id].revision + 1;
    CallsRaise(After(d, taken), calls, id);
    hide After, Enqueue;
  }

  /** While a lease runs, the record can be claimed by nobody, neither by name nor as due work. */
  lemma LeasedNotClaimed(d: Data, id: Id, now: int, leaseUntil: int, limit: int, after: map<Id, Publication>,
                         claimed: seq<Publication>)
    requires id in d.publications && d.publications[id].leaseUntil.Some? && now < d.publications[id].leaseUntil.value
    requires ClaimsDue(d.publications, now, leaseUntil, limit, after, claimed)
    ensures ClaimPublication(d, id, now, leaseUntil) == (d, ClaimErr(VersionConflict))
    ensures after[id] == d.publications[id] && forall i :: 0 <= i < |claimed| ==> claimed[i].intent != id
  {
    forall i | 0 <= i < |claimed| ensures claimed[i].intent != id {
      assert IsDueClaim(d.publications, now, leaseUntil, claimed[i]);
    }
  }
}
