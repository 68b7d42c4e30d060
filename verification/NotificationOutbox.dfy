/** The peer-notification queue: confirmations add to it, and any number of delivery workers claim due records,
    call the peer and report back by revision, possibly long after their lease ran out. */
module NotificationOutbox {
  import opened Domain
  import opened StoreState
  import opened PublicationProtocol

  /** `copies` holds what each worker claimed and has not reported on yet. */
  datatype Queue = Queue(records: map<NotificationId, Notification>, copies: map<nat, Notification>)

  datatype QueueStep =
    | Add(added: seq<Notification>)
    | Take(worker: nat, id: NotificationId, now: int, leaseUntil: int)
    | Conclude(worker: nat, delivered: bool, now: int, nextAttemptAt: int)

  /** What a worker writes after calling the peer. */
  function Reported(n: Notification, delivered: bool, now: int, nextAttemptAt: int): Notification {
    if delivered then n.(deliveredAt := Some(now)) else n.(nextAttemptAt := nextAttemptAt)
  }

  ghost predicate Moves(q: Queue, step: QueueStep, q': Queue) {
    match step
    case Add(added) =>
      (forall k :: 0 <= k < |added| ==> added[k].deliveredAt.None?) && q' == q.(records := Enqueue(q.records, added))
    case Take(n, id, now, leaseUntil) =>
      && n !in q.copies && id in q.records && NotificationDue(q.records[id], now)
      && var taken := ClaimedNotification(q.records[id], leaseUntil);
         q' == Queue(q.records[id := taken], q.copies[n := taken])
    case Conclude(n, delivered, now, nextAttemptAt) =>
      && n in q.copies
      && q' == Queue(WriteNotification(q.records, Reported(q.copies[n], delivered, now, nextAttemptAt),
         q.copies[n].revision).0, q.copies - {n})
  }

  /** Claiming one due notification from the store is a Take of the queue. */
  lemma DueClaimTakes(q: Queue, digest: Digest, n: nat, now: int, leaseUntil: int,
                      records: map<NotificationId, Notification>, copy: Notification)
    requires KeyedNotifications(q.records) && n !in q.copies
    requires TakesDue(q.records, digest, now, leaseUntil, 1, records, [copy])
    ensures Moves(q, Take(n, copy.id, now, leaseUntil), Queue(records, q.copies[n := copy]))
  {
    assert IsDueTake(q.records, now, leaseUntil, [copy][0]);
    assert forall id :: TakenHere([copy], id) <==> id == copy.id by {
      assert [copy][0].id == copy.id;
    }
    assert records == q.records[copy.id := copy];
  }

  ghost predicate QueueInv(q: Queue) {
    KeyedNotifications(q.records) && forall n :: n in q.copies ==> CopyFenced(q.records, q.copies[n])
  }

  /** A copy is undelivered and either the stored record itself or older than it. */
  ghost predicate CopyFenced(records: map<NotificationId, Notification>, copy: Notification) {
    && copy.id in records && copy.deliveredAt.None?
    && (records[copy.id] == copy || copy.revision < records[copy.id].revision)
  }

  /** The same notification, and if it was delivered the very same record. */
  predicate StaysQueued(a: Notification, b: Notification) {
    && b.id == a.id && b.intent == a.intent && b.intentVersion == a.intentVersion && b.url == a.url
    && b.payload == a.payload
    && a.revision <= b.revision && (a.deliveredAt.Some? ==> b == a)
  }

  lemma StepKeepsQueue(q: Queue, step: QueueStep, q': Queue)
    requires QueueInv(q) && Moves(q, step, q')
    ensures QueueInv(q')
    ensures forall id :: id in q.records ==> id in q'.records && StaysQueued(q.records[id], q'.records[id])
  {
    if step.Add? {
      EnqueueContains(q.records, step.added);
      EnqueueKeyed(q.records, step.added);
      forall n | n in q'.copies ensures CopyFenced(q'.records, q'.copies[n]) {
        assert CopyFenced(q.records, q.copies[n]);
      }
    } else {
      forall n | n in q'.copies ensures CopyFenced(q'.records, q'.copies[n]) {
        if n in q.copies {
          assert CopyFenced(q.records, q.copies[n]);
        }
      }
      if step.Conclude? {
        assert CopyFenced(q.records, q.copies[step.worker]);
      }
    }
  }

  lemma {:induction false} EnqueueKeyed(queued: map<NotificationId, Notification>, added: seq<Notification>)
    requires KeyedNotifications(queued)
    ensures KeyedNotifications(Enqueue(queued, added))
  {
    if added != [] {
      EnqueueKeyed(queued, added[..|added| - 1]);
    }
  }

  ghost predicate QueueFollows(q: Queue, q': Queue) { exists step :: Moves(q, step, q') }

  ghost predicate IsQueueRun(run: seq<Queue>) {
    |run| > 0 && run[0] == Queue(map[], map[]) && forall k :: 0 <= k < |run| - 1 ==> QueueFollows(run[k], run[k + 1])
  }

  lemma {:induction false} QueueRunInv(run: seq<Queue>, k: nat)
    requires IsQueueRun(run) && k < |run|
    ensures QueueInv(run[k])
  {
    if k > 0 {
      QueueRunInv(run, k - 1);
      QueueStepAt(run, k - 1);
    }
  }

  lemma QueueStepAt(run: seq<Queue>, k: nat)
    requires IsQueueRun(run) && k + 1 < |run| && QueueInv(run[k])
    ensures QueueInv(run[k + 1])
    ensures forall id :: id in run[k].records ==>
      id in run[k + 1].records && StaysQueued(run[k].records[id], run[k + 1].records[id])
  {
    assert QueueFollows(run[k], run[k + 1]);
    var step :| Moves(run[k], step, run[k + 1]);
    hide Moves, QueueInv, StaysQueued, IsQueueRun;
    StepKeepsQueue(run[k], step, run[k + 1]);
  }

  /** A queued notification is never removed or replaced, and once delivered its record never changes again, whatever
      a worker with an expired lease still reports. */
  lemma {:induction false} QueuedForever(run: seq<Queue>, i: nat, j: nat, id: NotificationId)
    requires IsQueueRun(run) && i <= j < |run| && id in run[i].records
    ensures id in run[j].records && StaysQueued(run[i].records[id], run[j].records[id])
  {
    if i < j {
      QueuedForever(run, i, j - 1, id);
      QueueRunInv(run, j - 1);
      QueueStepAt(run, j - 1);
      hide IsQueueRun, QueueInv;
    }
  }

  /** After its delivery is recorded, no step takes a notification again. */
  lemma DeliveredNeverTaken(run: seq<Queue>, i: nat, j: nat, id: NotificationId, n: nat, now: int, leaseUntil: int)
    requires IsQueueRun(run) && i <= j && j + 1 < |run| && id in run[i].records && run[i].records[id].deliveredAt.Some?
    ensures !Moves(run[j], Take(n, id, now, leaseUntil), run[j + 1])
  {
    QueuedForever(run, i, j, id);
    hide IsQueueRun;
  }

  /** Of several workers that took the same notification, only the one that took it last can still report. */
  lemma OnlyLastTakerReports(run: seq<Queue>, k: nat, m: nat, n: nat)
    requires IsQueueRun(run) && k < |run| && m in run[k].copies && n in run[k].copies
    requires run[k].copies[m].id == run[k].copies[n].id && run[k].copies[m].revision < run[k].copies[n].revision
    ensures forall delivered, now, next, q' :: Moves(run[k], Conclude(m, delivered, now, next), q') ==>
      q'.records == run[k].records
  {
    QueueRunInv(run, k);
    assert CopyFenced(run[k].records, run[k].copies[m]) && CopyFenced(run[k].records, run[k].copies[n]);
    hide IsQueueRun;
  }
}
