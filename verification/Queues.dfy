/**
 The in-memory task queues as values, with one transition per critical section
 of the queue manager and the dead letter queue.

 `tasks` is the heap of task objects, keyed by id; the containers hold
 references (ids). A task that a coroutine has popped from one container and
 not yet pushed into the next is a `Held` value.
 */
module Queues {
  import opened Tasks

  const WILDCARD: QueueName := "*"

  datatype Counters = Counters(
    enqueued: nat, dequeued: nat, acked: nat, nacked: nat, deadLettered: nat,
    received: nat, retried: nat, purged: nat)

  datatype QueueState = QueueState(
    tasks: map<TaskId, TaskRecord>,
    names: seq<QueueName>,                 // keys of `queues` in insertion order
    queues: map<QueueName, seq<TaskId>>,
    inFlight: set<TaskId>,
    completed: set<TaskId>,
    dlq: seq<TaskId>,
    maxRetries: int,
    count: Counters)

  /** Where a held task is going next. */
  datatype Goal = ToDlq | ToFront | ToBack
  datatype Held = Held(id: TaskId, goal: Goal)

  /** References are not dangling and the name order lists exactly the queues. */
  ghost predicate Valid(s: QueueState) {
    && NoDup(s.names)
    && (forall n :: n in s.names <==> n in s.queues)
    && (forall id :: id in s.tasks ==> s.tasks[id].id == id)
    && (forall n, id :: n in s.queues && id in s.queues[n] ==> id in s.tasks)
    && s.inFlight <= s.tasks.Keys
    && s.completed <= s.tasks.Keys
    && (forall id :: id in s.dlq ==> id in s.tasks)
  }

  function Empty(maxRetries: int): (s: QueueState)
    ensures Valid(s)
  {
    QueueState(map[], [], map[], {}, {}, [], maxRetries, Counters(0, 0, 0, 0, 0, 0, 0, 0))
  }

  function EnsureQueue(s: QueueState, n: QueueName): (r: QueueState)
    requires Valid(s)
    ensures Valid(r) && n in r.queues
  {
    if n in s.queues then s
    else s.(names := s.names + [n], queues := s.queues[n := []])
  }

  function PushBack(s: QueueState, n: QueueName, id: TaskId): (r: QueueState)
    requires Valid(s) && id in s.tasks
    ensures Valid(r)
  {
    var s1 := EnsureQueue(s, n);
    s1.(queues := s1.queues[n := s1.queues[n] + [id]])
  }

  function PushFront(s: QueueState, n: QueueName, id: TaskId): (r: QueueState)
    requires Valid(s) && id in s.tasks
    ensures Valid(r)
  {
    var s1 := EnsureQueue(s, n);
    s1.(queues := s1.queues[n := [id] + s1.queues[n]])
  }

  /** Overwrite the record of one task object. */
  function Write(s: QueueState, t: TaskRecord): (r: QueueState)
    requires Valid(s)
    ensures Valid(r)
  {
    s.(tasks := s.tasks[t.id := t])
  }

  /** enqueue and enqueue_recovered: a new task object goes to the back of its queue. */
  function Add(s: QueueState, t: TaskRecord): (r: QueueState)
    requires Valid(s)
    ensures Valid(r)
  {
    var s1 := PushBack(Write(s, t), t.queue, t.id);
    s1.(count := s1.count.(enqueued := s1.count.enqueued + 1))
  }

  function FirstNonEmpty(names: seq<QueueName>, queues: map<QueueName, seq<TaskId>>): (r: Option<QueueName>)
    requires forall n :: n in names ==> n in queues
    ensures r.Some? ==> r.value in names && queues[r.value] != []
    ensures r.None? ==> forall n :: n in names ==> queues[n] == []
  {
    if names == [] then None
    else if queues[names[0]] != [] then Some(names[0])
    else FirstNonEmpty(names[1..], queues)
  }

  /** The queue a CONSUME pops from: the wildcard takes the first non-empty queue in
      creation order, and gives up when that queue's name is the empty string. */
  function Source(s: QueueState, n: QueueName): (r: Option<QueueName>)
    requires Valid(s)
    ensures r.Some? ==> r.value in s.queues && s.queues[r.value] != []
  {
    if n == WILDCARD then
      var f := FirstNonEmpty(s.names, s.queues);
      if f.Some? && f.value != "" then f else None
    else if n in s.queues && s.queues[n] != [] then Some(n)
    else None
  }

  function Deliver(t: TaskRecord, w: WorkerId): TaskRecord {
    t.(status := InFlight, worker := Some(w), attempts := t.attempts + 1)
  }

  /** Pop the front task of a non-empty queue and hand it to a worker. */
  function Pop(s: QueueState, n: QueueName, w: WorkerId): (r: QueueState)
    requires Valid(s) && n in s.queues && s.queues[n] != []
    ensures Valid(r)
  {
    var id := s.queues[n][0];
    assert id in s.queues[n];
    var s1 := Write(s, Deliver(s.tasks[id], w));
    s1.(queues := s1.queues[n := s1.queues[n][1..]],
        inFlight := s1.inFlight + {id},
        count := s1.count.(dequeued := s1.count.dequeued + 1))
  }

  /** The new state and the task handed out, if any. */
  function Dequeue(s: QueueState, n: QueueName, w: WorkerId): (r: (QueueState, Option<TaskId>))
    requires Valid(s)
    ensures Valid(r.0)
    ensures r.1.Some? ==> r.1.value in s.tasks && r.1.value in r.0.tasks
  {
    var s1 := if n == WILDCARD then s else EnsureQueue(s, n);
    var src := Source(s, n);
    if src.None? then (s1, None) else (Pop(s1, src.value, w), Some(s1.queues[src.value][0]))
  }

  function Acknowledge(s: QueueState, id: TaskId): (r: QueueState)
    requires Valid(s)
    ensures Valid(r)
  {
    if id !in s.inFlight then s
    else
      var s1 := Write(s, s.tasks[id].(status := Done));
      s1.(inFlight := s1.inFlight - {id},
          completed := s1.completed + {id},
          count := s1.count.(acked := s1.count.acked + 1))
  }

  /** The retry policy: an exhausted task goes to the dead letter queue. */
  predicate Exhausted(s: QueueState, id: TaskId)
    requires id in s.tasks
  {
    s.tasks[id].attempts >= s.maxRetries
  }

  /** First critical section of negative_acknowledge, with the field updates made before
      the next suspension point. */
  function NackTake(s: QueueState, id: TaskId): (r: (QueueState, Option<Held>))
    requires Valid(s)
    ensures Valid(r.0)
    ensures r.1.Some? <==> id in s.inFlight
    ensures r.1.Some? ==> r.1.value.id == id && id in r.0.tasks
  {
    if id !in s.inFlight then (s, None)
    else
      var s1 := s.(inFlight := s.inFlight - {id}, count := s.count.(nacked := s.count.nacked + 1));
      if Exhausted(s, id) then
        (Write(s1.(count := s1.count.(deadLettered := s1.count.deadLettered + 1)),
               s.tasks[id].(status := DeadLettered)),
         Some(Held(id, ToDlq)))
      else
        (Write(s1, s.tasks[id].(status := Pending, worker := None)), Some(Held(id, ToFront)))
  }

  /** OrderedDict assignment: a known key keeps its position. */
  function PutDlq(dlq: seq<TaskId>, id: TaskId): seq<TaskId> {
    if id in dlq then dlq else dlq + [id]
  }

  /** DeadLetterQueue.add. */
  function PutDead(s: QueueState, id: TaskId): (r: QueueState)
    requires Valid(s) && id in s.tasks
    ensures Valid(r)
  {
    var s1 := Write(s, s.tasks[id].(status := DeadLettered));
    s1.(dlq := PutDlq(s1.dlq, id), count := s1.count.(received := s1.count.received + 1))
  }

  /** QueueManager.requeue(front=False). */
  function Requeue(s: QueueState, id: TaskId): (r: QueueState)
    requires Valid(s) && id in s.tasks
    ensures Valid(r)
  {
    PushBack(Write(s, s.tasks[id].(status := Pending, worker := None)), s.tasks[id].queue, id)
  }

  /** Second critical section: DeadLetterQueue.add, the NACK requeue or QueueManager.requeue. */
  function Release(s: QueueState, h: Held): (r: QueueState)
    requires Valid(s) && h.id in s.tasks
    ensures Valid(r)
  {
    match h.goal
    case ToDlq => PutDead(s, h.id)
    case ToFront => PushFront(s, s.tasks[h.id].queue, h.id)
    case ToBack =>
      var s1 := Requeue(s, h.id);
      s1.(count := s1.count.(retried := s1.count.retried + 1))
  }

  /** A whole negative_acknowledge, with nothing interleaved. */
  function Nack(s: QueueState, id: TaskId): (r: QueueState)
    requires Valid(s)
    ensures Valid(r)
  {
    var (s1, h) := NackTake(s, id);
    if h.None? then s1 else Release(s1, h.value)
  }

  /** What a whole NACK writes to the task. */
  function Failed(s: QueueState, id: TaskId): TaskRecord
    requires id in s.tasks
  {
    if Exhausted(s, id) then s.tasks[id].(status := DeadLettered)
    else s.tasks[id].(status := Pending, worker := None)
  }

  lemma NackWrites(s: QueueState, id: TaskId)
    requires Valid(s) && id in s.inFlight
    ensures Nack(s, id).tasks == s.tasks[id := Failed(s, id)]
    ensures Nack(s, id).inFlight == s.inFlight - {id}
    ensures Nack(s, id).completed == s.completed && Nack(s, id).maxRetries == s.maxRetries
    ensures Nack(s, id).dlq == if Exhausted(s, id) then PutDlq(s.dlq, id) else s.dlq
  {
  }

  function RequeueById(s: QueueState, id: TaskId): (r: QueueState)
    requires Valid(s)
    ensures Valid(r)
  {
    if id !in s.inFlight then s
    else
      var s1 := PushFront(Write(s, s.tasks[id].(status := Pending, worker := None)), s.tasks[id].queue, id);
      s1.(inFlight := s1.inFlight - {id})
  }

  /** requeue_by_id called once per listed id, as the eviction loop does. */
  function RequeueAll(s: QueueState, ids: seq<TaskId>): (r: QueueState)
    requires Valid(s)
    ensures Valid(r)
    decreases |ids|
  {
    if ids == [] then s else RequeueAll(RequeueById(s, ids[0]), ids[1..])
  }

  function DlqRemove(s: QueueState, id: TaskId): (r: QueueState)
    requires Valid(s)
    ensures Valid(r)
  {
    if id in s.dlq then s.(dlq := RemoveAt(s.dlq, IndexOf(s.dlq, id))) else s
  }

  /** First critical section of DeadLetterQueue.retry, with the reset that follows it. */
  function RetryTake(s: QueueState, id: TaskId): (r: (QueueState, Option<Held>))
    requires Valid(s)
    ensures Valid(r.0)
    ensures r.1.Some? <==> id in s.dlq
    ensures r.1.Some? ==> r.1.value.id == id && id in r.0.tasks
  {
    if id !in s.dlq then (s, None)
    else
      (Write(DlqRemove(s, id), s.tasks[id].(status := Pending, attempts := 0, worker := None)),
       Some(Held(id, ToBack)))
  }

  function Purge(s: QueueState): (r: QueueState)
    requires Valid(s)
    ensures Valid(r)
  {
    s.(dlq := [], count := s.count.(purged := s.count.purged + |s.dlq|))
  }
}
