/**
 Every interleaving of the queue manager's and dead letter queue's critical sections.

 negative_acknowledge and DeadLetterQueue.retry release one lock before taking the
 next, so between the two a task is held only by a coroutine. Any other critical
 section may run meanwhile.
 */
module Lifecycle {
  import opened Tasks
  import opened Queues

  datatype System = System(
    q: QueueState,
    held: seq<Held>,          // tasks in the hands of suspended coroutines
    discarded: set<TaskId>,   // removed or purged from the dead letter queue
    removed: nat,             // how many were discarded by `remove`
    reassigned: nat)          // successful requeue_by_id calls

  /** One critical section. */
  datatype Event =
    | Enqueue(queue: QueueName, payload: Payload, id: TaskId, now: real)
    | Consume(queue: QueueName, worker: WorkerId)
    | Ack(id: TaskId)
    | NackFirst(id: TaskId)
    | RequeueOne(id: TaskId)
    | RetryFirst(id: TaskId)
    | Second(k: nat)               // the k-th suspended coroutine runs its second section
    | RemoveDead(id: TaskId)
    | PurgeDead

  function Initial(maxRetries: int): System {
    System(Empty(maxRetries), [], {}, 0, 0)
  }

  ghost predicate Wf(s: System) {
    Valid(s.q) && forall k :: 0 <= k < |s.held| ==> s.held[k].id in s.q.tasks
  }

  /** UUIDs are fresh; a second section needs a coroutine that did its first. */
  predicate Enabled(s: System, e: Event) {
    match e
    case Enqueue(_, _, id, _) => id !in s.q.tasks
    case Second(k) => k < |s.held|
    case _ => true
  }

  function Hold(s: System, r: (QueueState, Option<Held>)): System {
    s.(q := r.0, held := if r.1.Some? then s.held + [r.1.value] else s.held)
  }

  function Step(s: System, e: Event): (r: System)
    requires Wf(s) && Enabled(s, e)
    ensures Wf(r)
  {
    match e
    case Enqueue(n, p, id, now) => s.(q := Add(s.q, NewTask(id, n, p, now, 0)))
    case Consume(n, w) => s.(q := Dequeue(s.q, n, w).0)
    case Ack(id) => s.(q := Acknowledge(s.q, id))
    case NackFirst(id) => Hold(s, NackTake(s.q, id))
    case RetryFirst(id) => Hold(s, RetryTake(s.q, id))
    case RequeueOne(id) =>
      s.(q := RequeueById(s.q, id), reassigned := s.reassigned + if id in s.q.inFlight then 1 else 0)
    case Second(k) => s.(q := Release(s.q, s.held[k]), held := RemoveAt(s.held, k))
    case RemoveDead(id) =>
      if id in s.q.dlq
      then s.(q := DlqRemove(s.q, id), discarded := s.discarded + {id}, removed := s.removed + 1)
      else s
    case PurgeDead => s.(q := Purge(s.q), discarded := s.discarded + Elems(s.q.dlq))
  }

  ghost predicate Legal(s: System, es: seq<Event>)
    requires Wf(s)
    decreases |es|
  {
    es == [] || (Enabled(s, es[0]) && Legal(Step(s, es[0]), es[1..]))
  }

  ghost function Run(s: System, es: seq<Event>): (r: System)
    requires Wf(s) && Legal(s, es)
    ensures Wf(r)
    decreases |es|
  {
    if es == [] then s else Run(Step(s, es[0]), es[1..])
  }

  // ---------------------------------------------------------------- places

  /** The positions a task can occupy. */
  datatype Place =
    | InQueue(name: QueueName, index: nat)
    | Flying
    | Completed
    | InDlq(position: nat)
    | InHand(slot: nat)
    | Discarded

  predicate At(s: System, id: TaskId, p: Place) {
    match p
    case InQueue(n, i) => n in s.q.queues && i < |s.q.queues[n]| && s.q.queues[n][i] == id
    case Flying => id in s.q.inFlight
    case Completed => id in s.q.completed
    case InDlq(i) => i < |s.q.dlq| && s.q.dlq[i] == id
    case InHand(k) => k < |s.held| && s.held[k].id == id
    case Discarded => id in s.discarded
  }

  /** The status field each place demands. */
  function StatusAt(s: System, p: Place): Status
    requires p.InHand? ==> p.slot < |s.held|
  {
    match p
    case InQueue(_, _) => Pending
    case Flying => InFlight
    case Completed => Done
    case InDlq(_) => DeadLettered
    case InHand(k) => if s.held[k].goal == ToDlq then DeadLettered else Pending
    case Discarded => DeadLettered
  }

  /** id is in exactly one place, that place is its own queue if it is a queue, and its status says so. */
  ghost predicate OnePlace(s: System, id: TaskId)
    requires id in s.q.tasks
  {
    exists p ::
      && At(s, id, p)
      && (forall p' :: At(s, id, p') ==> p' == p)
      && (p.InQueue? ==> p.name == s.q.tasks[id].queue)
      && s.q.tasks[id].status == StatusAt(s, p)
  }

  // ------------------------------------------------------------- invariant

  function HeldIds(held: seq<Held>): (ids: seq<TaskId>)
    ensures |ids| == |held|
    ensures forall k :: 0 <= k < |held| ==> ids[k] == held[k].id
  {
    seq(|held|, k requires 0 <= k < |held| => held[k].id)
  }

  /** How often id occurs in its own queue. */
  function QueueCopies(q: QueueState, id: TaskId): nat
    requires id in q.tasks
  {
    var n := q.tasks[id].queue;
    if n in q.queues then multiset(q.queues[n])[id] else 0
  }

  /** How often id occurs in all places together. */
  function Copies(s: System, id: TaskId): nat
    requires id in s.q.tasks
  {
    QueueCopies(s.q, id) + Bit(id in s.q.inFlight) + Bit(id in s.q.completed)
    + multiset(s.q.dlq)[id] + multiset(HeldIds(s.held))[id] + Bit(id in s.discarded)
  }

  /** The status field of id agrees with every place id occurs in. */
  ghost predicate Fits(s: System, id: TaskId)
    requires id in s.q.tasks
  {
    var t := s.q.tasks[id];
    && (QueueCopies(s.q, id) > 0 ==> t.status == Pending)
    && (id in s.q.inFlight ==> t.status == InFlight && t.attempts >= 1)
    && (id in s.q.completed ==> t.status == Done)
    && (id in s.q.dlq || id in s.discarded ==> t.status == DeadLettered)
    && (forall k :: 0 <= k < |s.held| && s.held[k].id == id ==>
          t.status == if s.held[k].goal == ToDlq then DeadLettered else Pending)
  }

  ghost predicate Good(s: System, id: TaskId)
    requires id in s.q.tasks
  {
    Copies(s, id) == 1 && Fits(s, id)
  }

  ghost predicate OwnQueues(q: QueueState)
    requires Valid(q)
  {
    forall n, id :: n in q.queues && id in q.queues[n] ==> q.tasks[id].queue == n
  }

  ghost predicate Inv(s: System) {
    && Wf(s)
    && OwnQueues(s.q)
    && s.discarded <= s.q.tasks.Keys
    && (forall id :: id in s.q.tasks ==> Good(s, id))
  }

  // How each kind of container change moves the counts.

  lemma PushCopies(q: QueueState, n: QueueName, id: TaskId, x: TaskId)
    requires Valid(q) && id in q.tasks && x in q.tasks
    ensures QueueCopies(PushBack(q, n, id), x) == QueueCopies(q, x) + Bit(x == id && q.tasks[x].queue == n)
    ensures QueueCopies(PushFront(q, n, id), x) == QueueCopies(q, x) + Bit(x == id && q.tasks[x].queue == n)
  {
  }

  /** An id that was never issued occurs nowhere. */
  lemma UnknownNowhere(s: System, id: TaskId)
    requires Wf(s) && id !in s.q.tasks && s.discarded <= s.q.tasks.Keys
    ensures forall n :: n in s.q.queues ==> multiset(s.q.queues[n])[id] == 0
    ensures id !in s.q.inFlight && id !in s.q.completed && id !in s.discarded && id !in s.q.dlq
    ensures multiset(s.q.dlq)[id] == 0 && multiset(HeldIds(s.held))[id] == 0
  {
    forall n | n in s.q.queues ensures multiset(s.q.queues[n])[id] == 0 {
      assert id !in s.q.queues[n];
    }
    assert id !in HeldIds(s.held);
  }

  /** Goodness of x depends only on its record and its occurrences. */
  lemma SameGood(s: System, r: System, x: TaskId)
    requires x in s.q.tasks && x in r.q.tasks && Good(s, x)
    requires r.q.tasks[x] == s.q.tasks[x] && QueueCopies(r.q, x) == QueueCopies(s.q, x)
    requires r.q.inFlight == s.q.inFlight && r.q.completed == s.q.completed && r.q.dlq == s.q.dlq
    requires r.held == s.held && r.discarded == s.discarded
    ensures Good(r, x)
  {
  }

  lemma AddCopies(q: QueueState, t: TaskRecord, x: TaskId)
    requires Valid(q) && t.id !in q.tasks && (x == t.id || x in q.tasks)
    ensures x in Add(q, t).tasks
    ensures QueueCopies(Add(q, t), x) == if x == t.id then 1 else QueueCopies(q, x)
  {
    PushCopies(Write(q, t), t.queue, t.id, x);
    assert x == t.id && t.queue in q.queues ==> x !in q.queues[t.queue];
  }

  lemma AddGood(s: System, t: TaskRecord, x: TaskId)
    requires Wf(s) && t.id !in s.q.tasks && t.status == Pending && s.discarded <= s.q.tasks.Keys
    requires x == t.id || (x in s.q.tasks && Good(s, x))
    ensures x in Add(s.q, t).tasks && Good(s.(q := Add(s.q, t)), x)
  {
    AddCopies(s.q, t, x);
    if x == t.id {
      UnknownNowhere(s, x);
    } else {
      SameGood(s, s.(q := Add(s.q, t)), x);
    }
  }

  lemma TailCount<T>(s: seq<T>, x: T)
    requires s != []
    ensures multiset(s[1..])[x] + Bit(x == s[0]) == multiset(s)[x]
  {
    assert s == [s[0]] + s[1..];
  }

  lemma PopCopies(s: System, n: QueueName, w: WorkerId, x: TaskId)
    requires Wf(s) && OwnQueues(s.q) && x in s.q.tasks && Source(s.q, n).Some?
    ensures var id := s.q.queues[Source(s.q, n).value][0];
      && id in s.q.tasks
      && QueueCopies(Dequeue(s.q, n, w).0, x) + Bit(x == id) == QueueCopies(s.q, x)
      && Dequeue(s.q, n, w).0.inFlight == s.q.inFlight + {id}
      && Dequeue(s.q, n, w).0.tasks == s.q.tasks[id := Deliver(s.q.tasks[id], w)]
  {
    var src := Source(s.q, n).value;
    HeadCounts(s.q, src);
    TailCount(s.q.queues[src], x);
    assert s.q.queues[src][0] in s.q.queues[src];
  }

  lemma ConsumeGood(s: System, n: QueueName, w: WorkerId, x: TaskId)
    requires Wf(s) && OwnQueues(s.q) && x in s.q.tasks && Good(s, x)
    ensures Good(s.(q := Dequeue(s.q, n, w).0), x)
  {
    if Source(s.q, n).Some? {
      PopCopies(s, n, w, x);
    }
  }

  lemma AckGood(s: System, id: TaskId, x: TaskId)
    requires Wf(s) && x in s.q.tasks && Good(s, x)
    ensures Good(s.(q := Acknowledge(s.q, id)), x)
  {
  }

  lemma HeldIdsAppend(held: seq<Held>, h: Held)
    ensures HeldIds(held + [h]) == HeldIds(held) + [h.id]
  {
  }

  lemma NackCounts(s: System, id: TaskId, x: TaskId)
    requires Wf(s) && id in s.q.inFlight && x in s.q.tasks
    ensures var r := Hold(s, NackTake(s.q, id));
      && multiset(HeldIds(r.held))[x] == multiset(HeldIds(s.held))[x] + Bit(x == id)
      && QueueCopies(r.q, x) == QueueCopies(s.q, x)
  {
    HeldIdsAppend(s.held, NackTake(s.q, id).1.value);
  }

  lemma NackFits(s: System, id: TaskId, x: TaskId)
    requires Wf(s) && id in s.q.inFlight && x in s.q.tasks && Good(s, x)
    ensures Fits(Hold(s, NackTake(s.q, id)), x)
  {
  }

  lemma NackGood(s: System, id: TaskId, x: TaskId)
    requires Wf(s) && x in s.q.tasks && Good(s, x)
    ensures Good(Hold(s, NackTake(s.q, id)), x)
  {
    if id in s.q.inFlight {
      NackCounts(s, id, x);
      NackFits(s, id, x);
    }
  }

  lemma RequeueCopies(q: QueueState, id: TaskId, x: TaskId)
    requires Valid(q) && id in q.inFlight && x in q.tasks
    ensures x in RequeueById(q, id).tasks
    ensures QueueCopies(RequeueById(q, id), x) == QueueCopies(q, x) + Bit(x == id)
  {
    var w := Write(q, q.tasks[id].(status := Pending, worker := None));
    PushCopies(w, q.tasks[id].queue, id, x);
  }

  lemma RequeueGood(s: System, id: TaskId, x: TaskId)
    requires Wf(s) && x in s.q.tasks && Good(s, x)
    ensures Good(s.(q := RequeueById(s.q, id)), x)
  {
    if id in s.q.inFlight {
      RequeueCopies(s.q, id, x);
    }
  }

  /** Removing one occurrence of id lowers only its own count. */
  lemma RemoveAtCount<T>(s: seq<T>, k: nat)
    requires k < |s|
    ensures multiset(RemoveAt(s, k)) == multiset(s) - multiset{s[k]}
  {
    assert s == s[..k] + [s[k]] + s[k + 1..];
  }

  lemma RetryCounts(s: System, id: TaskId, x: TaskId)
    requires Wf(s) && id in s.q.dlq && x in s.q.tasks
    ensures var r := Hold(s, RetryTake(s.q, id));
      && multiset(HeldIds(r.held))[x] == multiset(HeldIds(s.held))[x] + Bit(x == id)
      && multiset(r.q.dlq)[x] + Bit(x == id) == multiset(s.q.dlq)[x]
      && QueueCopies(r.q, x) == QueueCopies(s.q, x)
  {
    RemoveAtCount(s.q.dlq, IndexOf(s.q.dlq, id));
    HeldIdsAppend(s.held, Held(id, ToBack));
  }

  lemma RetryFits(s: System, id: TaskId, x: TaskId)
    requires Wf(s) && id in s.q.dlq && x in s.q.tasks && Good(s, x)
    requires x == id ==> multiset(Hold(s, RetryTake(s.q, id)).q.dlq)[x] == 0
    ensures Fits(Hold(s, RetryTake(s.q, id)), x)
  {
    var r := Hold(s, RetryTake(s.q, id));
    assert x in r.q.dlq ==> x in s.q.dlq && x != id;
  }

  lemma RetryGood(s: System, id: TaskId, x: TaskId)
    requires Wf(s) && x in s.q.tasks && Good(s, x)
    ensures Good(Hold(s, RetryTake(s.q, id)), x)
  {
    if id in s.q.dlq {
      RetryCounts(s, id, x);
      RetryFits(s, id, x);
    }
  }

  lemma RemoveDeadGood(s: System, id: TaskId, x: TaskId)
    requires Wf(s) && x in s.q.tasks && Good(s, x)
    ensures Good(Step(s, RemoveDead(id)), x)
  {
    if id in s.q.dlq {
      RemoveAtCount(s.q.dlq, IndexOf(s.q.dlq, id));
    }
  }

  lemma PurgeGood(s: System, x: TaskId)
    requires Wf(s) && x in s.q.tasks && Good(s, x)
    ensures Good(Step(s, PurgeDead), x)
  {
  }

  /** A held task has no other occurrence. */
  lemma HeldOnly(s: System, k: nat)
    requires Wf(s) && k < |s.held| && Good(s, s.held[k].id)
    ensures var id := s.held[k].id;
      && QueueCopies(s.q, id) == 0 && multiset(s.q.dlq)[id] == 0 && id !in s.q.dlq
      && id !in s.q.inFlight && id !in s.q.completed && id !in s.discarded
      && multiset(HeldIds(s.held))[id] == 1
      && s.q.tasks[id].status == if s.held[k].goal == ToDlq then DeadLettered else Pending
  {
    assert HeldIds(s.held)[k] == s.held[k].id;
    assert multiset(HeldIds(s.held))[s.held[k].id] > 0;
  }

  lemma HeldIdsRemove(held: seq<Held>, k: nat)
    requires k < |held|
    ensures HeldIds(RemoveAt(held, k)) == RemoveAt(HeldIds(held), k)
  {
  }

  lemma ReleaseCopies(q: QueueState, h: Held, x: TaskId)
    requires Valid(q) && h.id in q.tasks && x in q.tasks
    ensures x in Release(q, h).tasks
    ensures QueueCopies(Release(q, h), x) == QueueCopies(q, x) + Bit(x == h.id && h.goal != ToDlq)
  {
    var t := q.tasks[h.id];
    match h.goal
    case ToDlq =>
    case ToFront =>
      PushCopies(q, t.queue, h.id, x);
    case ToBack =>
      PushCopies(Write(q, t.(status := Pending, worker := None)), t.queue, h.id, x);
  }

  /** Everything else the second section does to x. */
  lemma ReleaseRest(s: System, k: nat, x: TaskId)
    requires Wf(s) && k < |s.held| && x in s.q.tasks && s.held[k].id !in s.q.dlq
    ensures var h, r := s.held[k], Release(s.q, s.held[k]);
      && r.inFlight == s.q.inFlight && r.completed == s.q.completed
      && multiset(r.dlq)[x] == multiset(s.q.dlq)[x] + Bit(x == h.id && h.goal == ToDlq)
      && (x in r.dlq ==> x in s.q.dlq || (x == h.id && h.goal == ToDlq))
      && (x != h.id ==> r.tasks[x] == s.q.tasks[x])
      && (x == h.id && h.goal == ToDlq ==> r.tasks[x].status == DeadLettered)
      && (x == h.id && s.q.tasks[x].status == Pending && h.goal != ToDlq ==> r.tasks[x].status == Pending)
  {
    match s.held[k].goal
    case ToDlq =>
      assert (s.q.dlq + [s.held[k].id])[|s.q.dlq|] == s.held[k].id;
    case ToFront =>
    case ToBack =>
  }

  lemma HeldAfterRemove(s: System, k: nat, x: TaskId)
    requires Wf(s) && k < |s.held| && x in s.q.tasks && Fits(s, x)
    ensures forall j :: 0 <= j < |s.held| - 1 && RemoveAt(s.held, k)[j].id == x ==>
              s.q.tasks[x].status == if RemoveAt(s.held, k)[j].goal == ToDlq then DeadLettered else Pending
  {
    var r := RemoveAt(s.held, k);
    forall j | 0 <= j < |r| && r[j].id == x
      ensures s.q.tasks[x].status == if r[j].goal == ToDlq then DeadLettered else Pending
    {
      assert r[j] == s.held[if j < k then j else j + 1];
    }
  }

  lemma ReleaseGood(s: System, k: nat, x: TaskId)
    requires Wf(s) && k < |s.held| && x in s.q.tasks && Good(s, x) && Good(s, s.held[k].id)
    ensures x in Release(s.q, s.held[k]).tasks
    ensures Good(s.(q := Release(s.q, s.held[k]), held := RemoveAt(s.held, k)), x)
  {
    HeldOnly(s, k);
    HeldIdsRemove(s.held, k);
    RemoveAtCount(HeldIds(s.held), k);
    ReleaseCopies(s.q, s.held[k], x);
    ReleaseRest(s, k, x);
    HeldAfterRemove(s, k, x);
    if x == s.held[k].id {
      assert multiset(HeldIds(RemoveAt(s.held, k)))[x] == 0;
      assert forall j :: 0 <= j < |s.held| - 1 ==> HeldIds(RemoveAt(s.held, k))[j] != x;
    }
  }

  // Tasks only ever sit in their own queue.

  lemma WriteOwn(q: QueueState, t: TaskRecord)
    requires Valid(q) && OwnQueues(q) && (t.id in q.tasks ==> t.queue == q.tasks[t.id].queue)
    ensures OwnQueues(Write(q, t))
  {
  }

  lemma PushOwn(q: QueueState, id: TaskId)
    requires Valid(q) && OwnQueues(q) && id in q.tasks
    ensures OwnQueues(PushBack(q, q.tasks[id].queue, id))
    ensures OwnQueues(PushFront(q, q.tasks[id].queue, id))
  {
    var n := q.tasks[id].queue;
    OwnAfterPush(q, PushBack(q, n, id), n, id);
    OwnAfterPush(q, PushFront(q, n, id), n, id);
  }

  lemma OwnAfterPush(q: QueueState, r: QueueState, n: QueueName, id: TaskId)
    requires Valid(q) && OwnQueues(q) && Valid(r) && r.tasks == q.tasks && id in q.tasks && q.tasks[id].queue == n
    requires r.queues.Keys == q.queues.Keys + {n}
    requires forall m, x :: m in r.queues && x in r.queues[m] ==> (m in q.queues && x in q.queues[m]) || (m == n && x == id)
    ensures OwnQueues(r)
  {
  }

  lemma DequeueOwn(q: QueueState, n: QueueName, w: WorkerId)
    requires Valid(q) && OwnQueues(q)
    ensures OwnQueues(Dequeue(q, n, w).0)
  {
  }

  lemma RequeueOwn(q: QueueState, id: TaskId)
    requires Valid(q) && OwnQueues(q)
    ensures OwnQueues(RequeueById(q, id))
  {
    if id in q.inFlight {
      var w := Write(q, q.tasks[id].(status := Pending, worker := None));
      WriteOwn(q, q.tasks[id].(status := Pending, worker := None));
      PushOwn(w, id);
    }
  }

  lemma ReleaseOwn(q: QueueState, h: Held)
    requires Valid(q) && OwnQueues(q) && h.id in q.tasks
    ensures OwnQueues(Release(q, h))
  {
    var t := q.tasks[h.id];
    match h.goal
    case ToDlq =>
    case ToFront =>
      PushOwn(q, h.id);
    case ToBack =>
      WriteOwn(q, t.(status := Pending, worker := None));
      PushOwn(Write(q, t.(status := Pending, worker := None)), h.id);
  }

  lemma StepOwn(s: System, e: Event)
    requires Wf(s) && OwnQueues(s.q) && Enabled(s, e)
    ensures OwnQueues(Step(s, e).q)
  {
    match e
    case Enqueue(n, p, id, now) =>
      WriteOwn(s.q, NewTask(id, n, p, now, 0));
      PushOwn(Write(s.q, NewTask(id, n, p, now, 0)), id);
    case Consume(n, w) => DequeueOwn(s.q, n, w);
    case Ack(id) =>
    case NackFirst(id) =>
    case RetryFirst(id) =>
    case RequeueOne(id) => RequeueOwn(s.q, id);
    case Second(k) => ReleaseOwn(s.q, s.held[k]);
    case RemoveDead(id) =>
    case PurgeDead =>
  }

  /** Sections of the queue manager proper. */
  lemma QueueStepGood(s: System, e: Event, x: TaskId)
    requires Wf(s) && OwnQueues(s.q) && s.discarded <= s.q.tasks.Keys && Enabled(s, e)
    requires e.Enqueue? || e.Consume? || e.Ack? || e.RequeueOne?
    requires x in s.q.tasks ==> Good(s, x)
    requires x in Step(s, e).q.tasks
    ensures Good(Step(s, e), x)
  {
    match e
    case Enqueue(n, p, id, now) => AddGood(s, NewTask(id, n, p, now, 0), x);
    case Consume(n, w) => ConsumeGood(s, n, w, x);
    case Ack(id) => AckGood(s, id, x);
    case RequeueOne(id) => RequeueGood(s, id, x);
  }

  /** Sections that hand a task to or from the dead letter queue. */
  lemma DlqStepGood(s: System, e: Event, x: TaskId)
    requires Wf(s) && Enabled(s, e)
    requires e.NackFirst? || e.RetryFirst? || e.Second? || e.RemoveDead? || e.PurgeDead?
    requires x in s.q.tasks && Good(s, x)
    requires e.Second? ==> Good(s, s.held[e.k].id)
    ensures x in Step(s, e).q.tasks && Good(Step(s, e), x)
  {
    match e
    case NackFirst(id) => NackGood(s, id, x);
    case RetryFirst(id) => RetryGood(s, id, x);
    case Second(k) => ReleaseGood(s, k, x);
    case RemoveDead(id) => RemoveDeadGood(s, id, x);
    case PurgeDead => PurgeGood(s, x);
  }

  lemma StepGood(s: System, e: Event, x: TaskId)
    requires Inv(s) && Enabled(s, e) && x in Step(s, e).q.tasks
    ensures Good(Step(s, e), x)
  {
    if e.Enqueue? || e.Consume? || e.Ack? || e.RequeueOne? {
      QueueStepGood(s, e, x);
    } else {
      assert x in s.q.tasks;
      DlqStepGood(s, e, x);
    }
  }

  lemma StepDiscarded(s: System, e: Event)
    requires Wf(s) && s.discarded <= s.q.tasks.Keys && Enabled(s, e)
    ensures Step(s, e).discarded <= Step(s, e).q.tasks.Keys
  {
  }

  lemma StepKeepsInv(s: System, e: Event)
    requires Inv(s) && Enabled(s, e)
    ensures Inv(Step(s, e))
  {
    StepOwn(s, e);
    StepDiscarded(s, e);
    forall x | x in Step(s, e).q.tasks ensures Good(Step(s, e), x) {
      StepGood(s, e, x);
    }
  }

  lemma {:induction false} RunKeepsInv(s: System, es: seq<Event>)
    requires Inv(s) && Legal(s, es)
    ensures Inv(Run(s, es))
    decreases |es|
  {
    if es != [] {
      StepKeepsInv(s, es[0]);
      RunKeepsInv(Step(s, es[0]), es[1..]);
    }
  }

  // ------------------------------------------------------ exactly one place

  lemma TwiceCounts<T>(s: seq<T>, i: nat, j: nat)
    requires i < j < |s| && s[i] == s[j]
    ensures multiset(s)[s[i]] >= 2
  {
    assert s == s[..i] + [s[i]] + s[i + 1..j] + [s[j]] + s[j + 1..];
  }

  lemma AtMostOnce<T>(s: seq<T>, i: nat, j: nat)
    requires i < |s| && j < |s| && s[i] == s[j] && multiset(s)[s[i]] <= 1
    ensures i == j
  {
    if i < j {
      TwiceCounts(s, i, j);
    } else if j < i {
      TwiceCounts(s, j, i);
    }
  }

  function FindPlace(s: System, id: TaskId): Place
    requires id in s.q.tasks
  {
    var n := s.q.tasks[id].queue;
    if n in s.q.queues && id in s.q.queues[n] then InQueue(n, IndexOf(s.q.queues[n], id))
    else if id in s.q.inFlight then Flying
    else if id in s.q.completed then Completed
    else if id in s.q.dlq then InDlq(IndexOf(s.q.dlq, id))
    else if id in s.discarded then Discarded
    else InHand(IndexOf(HeldIds(s.held), id))
  }

  lemma FoundThere(s: System, id: TaskId)
    requires Wf(s) && id in s.q.tasks && Good(s, id)
    ensures var p := FindPlace(s, id);
      At(s, id, p) && (p.InQueue? ==> p.name == s.q.tasks[id].queue) && s.q.tasks[id].status == StatusAt(s, p)
  {
  }

  /** Two occurrences of the same kind would count twice. */
  lemma SameKind(s: System, id: TaskId, p: Place, p': Place)
    requires Wf(s) && OwnQueues(s.q) && id in s.q.tasks && Copies(s, id) == 1
    requires At(s, id, p) && At(s, id, p')
    requires (p.InQueue? && p'.InQueue?) || (p.InDlq? && p'.InDlq?) || (p.InHand? && p'.InHand?)
    ensures p == p'
  {
    if p.InQueue? {
      assert p.name == s.q.tasks[id].queue == p'.name;
      AtMostOnce(s.q.queues[p.name], p.index, p'.index);
    } else if p.InDlq? {
      AtMostOnce(s.q.dlq, p.position, p'.position);
    } else {
      AtMostOnce(HeldIds(s.held), p.slot, p'.slot);
    }
  }

  function Weight(s: System, id: TaskId, p: Place): nat
    requires id in s.q.tasks
  {
    match p
    case InQueue(_, _) => QueueCopies(s.q, id)
    case Flying => Bit(id in s.q.inFlight)
    case Completed => Bit(id in s.q.completed)
    case InDlq(_) => multiset(s.q.dlq)[id]
    case InHand(_) => multiset(HeldIds(s.held))[id]
    case Discarded => Bit(id in s.discarded)
  }

  lemma AtWeighs(s: System, id: TaskId, p: Place)
    requires Wf(s) && OwnQueues(s.q) && id in s.q.tasks && At(s, id, p)
    ensures Weight(s, id, p) >= 1
  {
    match p
    case InQueue(n, i) => assert id in s.q.queues[n];
    case InDlq(i) => assert id in s.q.dlq;
    case InHand(k) => assert HeldIds(s.held)[k] == id;
    case _ =>
  }

  lemma OnlyThere(s: System, id: TaskId, p: Place, p': Place)
    requires Inv(s) && id in s.q.tasks && At(s, id, p) && At(s, id, p')
    ensures p == p'
  {
    AtWeighs(s, id, p);
    AtWeighs(s, id, p');
    assert Copies(s, id) == 1;
    if (p.InQueue? && p'.InQueue?) || (p.InDlq? && p'.InDlq?) || (p.InHand? && p'.InHand?) {
      SameKind(s, id, p, p');
    }
  }

  /** Over every interleaving of critical sections, every task ever enqueued is in exactly
      one place, in its own queue if queued, with the status of that place. */
  lemma ExactlyOnePlace(maxRetries: int, es: seq<Event>, id: TaskId)
    requires Legal(Initial(maxRetries), es)
    requires id in Run(Initial(maxRetries), es).q.tasks
    ensures OnePlace(Run(Initial(maxRetries), es), id)
  {
    RunKeepsInv(Initial(maxRetries), es);
    var s := Run(Initial(maxRetries), es);
    assert Good(s, id);
    FoundThere(s, id);
    forall p' | At(s, id, p') ensures p' == FindPlace(s, id) {
      OnlyThere(s, id, FindPlace(s, id), p');
    }
  }

  // -------------------------------------------------- completion is final

  /** The task a critical section hands to a worker. */
  function Delivered(s: System, e: Event): Option<TaskId>
    requires Wf(s)
  {
    if e.Consume? then Dequeue(s.q, e.queue, e.worker).1 else None
  }

  ghost predicate Delivers(s: System, es: seq<Event>, id: TaskId)
    requires Wf(s) && Legal(s, es)
    decreases |es|
  {
    es != [] && (Delivered(s, es[0]) == Some(id) || Delivers(Step(s, es[0]), es[1..], id))
  }

  lemma CompletedStep(s: System, e: Event, id: TaskId)
    requires Inv(s) && Enabled(s, e) && id in s.q.completed
    ensures id in Step(s, e).q.completed && Delivered(s, e) != Some(id)
  {
    CompletedStays(s, e, id);
    assert Good(s, id);
    if e.Consume? {
      NotDelivered(s, e.queue, e.worker, id);
    }
  }

  lemma CompletedStays(s: System, e: Event, id: TaskId)
    requires Wf(s) && Enabled(s, e) && id in s.q.completed
    ensures id in Step(s, e).q.completed
  {
  }

  lemma NotDelivered(s: System, n: QueueName, w: WorkerId, id: TaskId)
    requires Wf(s) && OwnQueues(s.q) && id in s.q.tasks && Good(s, id) && id in s.q.completed
    ensures Dequeue(s.q, n, w).1 != Some(id)
  {
    var src := Source(s.q, n);
    if src.Some? {
      HeadCounts(s.q, src.value);
    }
  }

  lemma HeadCounts(q: QueueState, n: QueueName)
    requires Valid(q) && OwnQueues(q) && n in q.queues && q.queues[n] != []
    ensures q.queues[n][0] in q.tasks && QueueCopies(q, q.queues[n][0]) > 0
  {
    assert q.queues[n][0] in q.queues[n];
  }

  /** Once acknowledged, a task stays completed and no later section hands it out. */
  lemma {:induction false} CompletedIsFinal(s: System, es: seq<Event>, id: TaskId)
    requires Inv(s) && Legal(s, es) && id in s.q.completed
    ensures id in Run(s, es).q.completed && !Delivers(s, es, id)
    decreases |es|
  {
    if es != [] {
      CompletedStep(s, es[0], id);
      StepKeepsInv(s, es[0]);
      CompletedIsFinal(Step(s, es[0]), es[1..], id);
    }
  }
}
