/**
 The broker's command handlers as functions on its three components. With persistence
 on, every handler commits what it did before it answers; `Commits` lists the store after
 each commit, in order, so that a crash can cut a handler off after any of them.
 */
module Handlers {
  import opened Tasks
  import opened Queues
  import opened WalStore
  import opened Registry

  datatype Broker = Broker(mgr: QueueState, reg: Workers, store: Tables)

  datatype Request =
    | Produce(queue: QueueName, payload: Payload, id: TaskId, now: real)   // admitted by the load shedder
    | Consume(queue: QueueName, worker: WorkerId)
    | Ack(id: TaskId, worker: WorkerId)
    | Nack(id: TaskId, worker: WorkerId)
    | Join(worker: WorkerId, now: real)                                    // REGISTER
    | Beat(worker: WorkerId, now: real)                                    // HEARTBEAT
    | Tick(now: real, orphans: seq<TaskId>)                                // one pass of the eviction loop
    | Replay(id: TaskId, newId: TaskId, now: real)                         // DLQ_REPLAY
    | PurgeDlq(only: Option<QueueName>)                                    // DLQ_PURGE

  const PEEK_LIMIT: nat := 100
  const NO_PAYLOAD: Payload := "{}"

  /** Fresh ids, and an eviction pass that visits exactly the tasks of the dead workers, in any order. */
  predicate Possible(b: Broker, r: Request) {
    match r
    case Produce(_, _, id, _) => id !in b.mgr.tasks
    case Replay(_, newId, _) => newId !in b.mgr.tasks
    case Tick(now, ids) => Elems(ids) == Orphans(b.reg, now)
    case _ => true
  }

  function DoProduce(b: Broker, n: QueueName, p: Payload, id: TaskId, now: real): (r: Broker)
    requires Valid(b.mgr)
    ensures Valid(r.mgr)
  {
    if n == "" then b
    else
      var t := NewTask(id, n, p, now, 0);
      b.(mgr := Add(b.mgr, t), store := SaveTask(b.store, t))
  }

  /** The task a CONSUME hands out, if any. */
  function Delivery(b: Broker, n: QueueName, w: WorkerId): (r: Option<TaskId>)
    requires Valid(b.mgr)
  {
    if n == "" then None else Dequeue(b.mgr, n, w).1
  }

  function DoConsume(b: Broker, n: QueueName, w: WorkerId): (r: Broker)
    requires Valid(b.mgr)
    ensures Valid(r.mgr)
  {
    if n == "" then b
    else
      var (m, got) := Dequeue(b.mgr, n, w);
      if got.None? then b.(mgr := m)
      else
        var id := got.value;
        Broker(m, Registry.Assign(b.reg, w, id),
               UpdateStatus(b.store, id, InFlight, Some(m.tasks[id].attempts), Some(w)))
  }

  function DoAck(b: Broker, id: TaskId, w: WorkerId): (r: Broker)
    requires Valid(b.mgr)
    ensures Valid(r.mgr)
  {
    if id !in b.mgr.inFlight then b
    else Broker(Acknowledge(b.mgr, id), Complete(b.reg, w, id), UpdateStatus(b.store, id, Done, None, None))
  }

  /** The payload the NACK handler finds for the store: only the oldest in-memory
      dead letters are searched. */
  function FoundPayload(m: QueueState, id: TaskId): Payload
    requires Valid(m)
  {
    var seen := if PEEK_LIMIT < |m.dlq| then m.dlq[..PEEK_LIMIT] else m.dlq;
    if id in seen then m.tasks[id].payload else NO_PAYLOAD
  }

  function StoreNack(m: QueueState, store: Tables, id: TaskId, dead: bool): Tables
    requires Valid(m) && id in m.tasks
  {
    if dead then AddToDlq(store, DlqRow(id, m.tasks[id].queue, FoundPayload(m, id), m.tasks[id].attempts))
    else UpdateStatus(store, id, Pending, Some(m.tasks[id].attempts), None)
  }

  function DoNack(b: Broker, id: TaskId, w: WorkerId): (r: Broker)
    requires Valid(b.mgr)
    ensures Valid(r.mgr)
  {
    if id !in b.mgr.inFlight then b
    else
      var m := Queues.Nack(b.mgr, id);
      NackWrites(b.mgr, id);
      Broker(m, Complete(b.reg, w, id), StoreNack(m, b.store, id, Exhausted(b.mgr, id)))
  }

  function DoTick(b: Broker, now: real, ids: seq<TaskId>): (r: Broker)
    requires Valid(b.mgr)
    ensures Valid(r.mgr)
  {
    b.(mgr := RequeueAll(b.mgr, ids), reg := Evict(b.reg, now, |Elems(ids) * b.mgr.inFlight|))
  }

  /** First commit of a replay: the dead letter is gone and nothing has taken its place. */
  function ReplayHalf(store: Tables, id: TaskId): Tables {
    DropDlq(store, id)
  }

  function DoReplay(b: Broker, id: TaskId, newId: TaskId, now: real): (r: Broker)
    requires Valid(b.mgr)
    ensures Valid(r.mgr)
  {
    if id !in b.store.dlq then b
    else
      var t := NewTask(newId, b.store.dlq[id].queue, b.store.dlq[id].payload, now, 0);
      b.(mgr := Add(b.mgr, t), store := SaveTask(ReplayHalf(b.store, id), t))
  }

  function Handle(b: Broker, r: Request): (b': Broker)
    requires Valid(b.mgr)
    ensures Valid(b'.mgr)
  {
    match r
    case Produce(n, p, id, now) => DoProduce(b, n, p, id, now)
    case Consume(n, w) => DoConsume(b, n, w)
    case Ack(id, w) => DoAck(b, id, w)
    case Nack(id, w) => DoNack(b, id, w)
    case Join(w, now) => b.(reg := Register(b.reg, w, now))
    case Beat(w, now) => b.(reg := Heartbeat(b.reg, w, now))
    case Tick(now, ids) => DoTick(b, now, ids)
    case Replay(id, newId, now) => DoReplay(b, id, newId, now)
    case PurgeDlq(q) => b.(store := WalStore.PurgeDlq(b.store, q))
  }

  /** The store after each commit the handler makes. */
  function Commits(b: Broker, r: Request): seq<Tables>
    requires Valid(b.mgr)
  {
    match r
    case Produce(n, p, id, now) => if n == "" then [] else [SaveTask(b.store, NewTask(id, n, p, now, 0))]
    case Consume(n, w) =>
      var got := Delivery(b, n, w);
      if got.None? then []
      else [UpdateStatus(b.store, got.value, InFlight, Some(b.mgr.tasks[got.value].attempts + 1), Some(w))]
    case Ack(id, _) => if id !in b.mgr.inFlight then [] else [UpdateStatus(b.store, id, Done, None, None)]
    case Nack(id, _) =>
      if id !in b.mgr.inFlight then []
      else
        NackWrites(b.mgr, id);
        [StoreNack(Queues.Nack(b.mgr, id), b.store, id, Exhausted(b.mgr, id))]
    case Replay(id, newId, now) =>
      if id !in b.store.dlq then []
      else
        var half := ReplayHalf(b.store, id);
        [half, SaveTask(half, NewTask(newId, b.store.dlq[id].queue, b.store.dlq[id].payload, now, 0))]
    case PurgeDlq(q) => [WalStore.PurgeDlq(b.store, q)]
    case _ => []
  }

  lemma DeliveredAttempts(m: QueueState, n: QueueName, w: WorkerId)
    requires Valid(m)
    ensures var (m', got) := Dequeue(m, n, w); got.Some? ==> m'.tasks[got.value].attempts == m.tasks[got.value].attempts + 1
  {
  }

  /** Nothing a handler persists is left uncommitted when it answers. */
  lemma CommittedBeforeAnswer(b: Broker, r: Request)
    requires Valid(b.mgr)
    ensures var cs := Commits(b, r);
      Handle(b, r).store == if cs == [] then b.store else cs[|cs| - 1]
  {
    if r.Consume? && r.queue != "" {
      DeliveredAttempts(b.mgr, r.queue, r.worker);
    }
  }
}
