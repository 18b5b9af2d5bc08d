/**
 The broker server: command handlers, eviction pass and recovery loop as methods that drive the queue
 manager, the worker registry and the store object by object. Each is proved to perform the
 transition of `Handlers` (or the loop of `Runs`) on the server's view.
 */
module BrokerServer {
  import opened Tasks
  import opened Queues
  import opened WalStore
  import opened Registry
  import opened Handlers
  import Placement
  import QM = QueueManagement
  import R = Runs
  import Recovery

  class WorkerRegistry {
    const manager: QM.QueueManager
    var info: map<WorkerId, WorkerInfo>
    var evictions: nat
    var reassigned: nat

    constructor (manager: QM.QueueManager)
      ensures this.manager == manager && View() == NoWorkers
    {
      this.manager := manager;
      info, evictions, reassigned := map[], 0, 0;
    }

    ghost function View(): Workers
      reads this
    {
      Workers(info, evictions, reassigned)
    }

    method Join(w: WorkerId, now: real) returns (isNew: bool)
      modifies this
      ensures View() == Register(old(View()), w, now) && isNew == (w !in old(info))
    {
      isNew := w !in info;
      info := info[w := WorkerInfo(now, {})];
    }

    method RecordHeartbeat(w: WorkerId, now: real) returns (found: bool)
      modifies this
      ensures View() == Heartbeat(old(View()), w, now) && found == (w in old(info))
    {
      found := w in info;
      if found {
        info := info[w := info[w].(lastHeartbeat := now)];
      }
    }

    method AssignTask(w: WorkerId, id: TaskId)
      modifies this
      ensures View() == Registry.Assign(old(View()), w, id)
    {
      if w in info {
        info := info[w := info[w].(tracked := info[w].tracked + {id})];
      }
    }

    method CompleteTask(w: WorkerId, id: TaskId)
      modifies this
      ensures View() == Complete(old(View()), w, id)
    {
      if w in info {
        info := info[w := info[w].(tracked := info[w].tracked - {id})];
      }
    }

    /** Requeue one orphan and count it if it was still in flight. */
    method ReturnTask(id: TaskId)
      requires manager.Valid()
      modifies this`reassigned, manager, manager.objects.Values
      ensures manager.objects == old(manager.objects) && manager.View() == RequeueById(old(manager.View()), id)
      ensures reassigned == old(reassigned) + if id in old(manager.inFlight) then 1 else 0
    {
      var found := manager.RequeueById(id);
      if found {
        CountReassigned();
      }
    }

    method CountReassigned()
      modifies this`reassigned
      ensures reassigned == old(reassigned) + 1
      ensures manager.View() == old(manager.View()) && manager.objects == old(manager.objects)
    {
      reassigned := reassigned + 1;
    }

    method ReturnNext(id: TaskId, ghost start: QueueState, ghost base: nat, ghost ids: seq<TaskId>)
      requires Returned(start, base, ids, manager.View(), reassigned)
      modifies this`reassigned, manager, manager.objects.Values
      ensures manager.objects == old(manager.objects)
      ensures Returned(start, base, ids + [id], manager.View(), reassigned)
    {
      ReturnedMore(start, base, ids, manager.View(), reassigned, id);
      ReturnTask(id);
    }

    /** Requeue every task one dead worker was tracking, in any order. */
    method ReturnTasks(tracked: set<TaskId>, ghost start: QueueState, ghost base: nat, ghost done: seq<TaskId>)
      returns (ghost ids: seq<TaskId>)
      requires Returned(start, base, done, manager.View(), reassigned)
      modifies this`reassigned, manager, manager.objects.Values
      ensures manager.objects == old(manager.objects)
      ensures Returned(start, base, ids, manager.View(), reassigned) && Elems(ids) == Elems(done) + tracked
    {
      ids := done;
      var todo := tracked;
      while todo != {}
        invariant Visited(done, ids, tracked, todo) && manager.objects == old(manager.objects)
        invariant Returned(start, base, ids, manager.View(), reassigned)
        decreases |todo|
      {
        var id :| id in todo;
        VisitOne(done, ids, tracked, todo, id);
        ReturnNext(id, start, base, ids);
        ids, todo := ids + [id], todo - {id};
      }
      VisitedAll(done, ids, tracked);
    }

    /** One pass of the eviction loop. */
    method EvictDeadWorkers(now: real) returns (ghost ids: seq<TaskId>)
      requires manager.Valid()
      modifies this, manager, manager.objects.Values
      ensures Elems(ids) == Orphans(old(View()), now)
      ensures manager.View() == RequeueAll(old(manager.View()), ids) && manager.objects == old(manager.objects)
      ensures View() == Evict(old(View()), now, |Elems(ids) * old(manager.inFlight)|)
    {
      var was := info;
      var dead := Remove(now);
      OrphansTracked(old(View()), dead, now);
      ids := ReturnAllOf(was, dead, manager.View(), reassigned);
    }

    /** Drop the workers that have been silent too long. */
    method Remove(now: real) returns (dead: set<WorkerId>)
      modifies this`info, this`evictions
      ensures dead == Dead(old(View()), now) && dead <= old(info).Keys
      ensures View() == Evict(old(View()), now, 0)
      ensures manager.View() == old(manager.View()) && manager.objects == old(manager.objects)
    {
      dead := set w | w in info && IsDead(info[w], now);
      info, evictions := info - dead, evictions + |dead|;
    }

    /** The tasks of all dead workers, one worker after the other. */
    method ReturnAllOf(was: map<WorkerId, WorkerInfo>, dead: set<WorkerId>, ghost start: QueueState, ghost base: nat)
      returns (ghost ids: seq<TaskId>)
      requires Queues.Valid(start) && manager.View() == start && reassigned == base && dead <= was.Keys
      modifies this`reassigned, manager, manager.objects.Values
      ensures manager.objects == old(manager.objects)
      ensures Returned(start, base, ids, manager.View(), reassigned) && Elems(ids) == TrackedBy(was, dead)
    {
      ids := [];
      NoneReturned(start, base);
      var todo := dead;
      assert Covered(ids, was, dead, todo);
      while todo != {}
        invariant Covered(ids, was, dead, todo) && manager.objects == old(manager.objects)
        invariant Returned(start, base, ids, manager.View(), reassigned)
        decreases |todo|
      {
        var w :| w in todo;
        ghost var done := ids;
        ids := ReturnTasks(was[w].tracked, start, base, ids);
        CoverOne(done, ids, was, dead, todo, w);
        todo := todo - {w};
      }
      CoveredAll(ids, was, dead);
    }
  }

  // Of the tracked tasks, all but `todo` have been appended to `done`.
  ghost predicate Visited(done: seq<TaskId>, ids: seq<TaskId>, tracked: set<TaskId>, todo: set<TaskId>) {
    todo <= tracked && Elems(ids) == Elems(done) + (tracked - todo)
  }

  lemma VisitOne(done: seq<TaskId>, ids: seq<TaskId>, tracked: set<TaskId>, todo: set<TaskId>, x: TaskId)
    requires Visited(done, ids, tracked, todo) && x in todo
    ensures Visited(done, ids + [x], tracked, todo - {x})
  {
    assert Elems(ids + [x]) == Elems(ids) + {x};
  }

  lemma VisitedAll(done: seq<TaskId>, ids: seq<TaskId>, tracked: set<TaskId>)
    requires Visited(done, ids, tracked, {})
    ensures Elems(ids) == Elems(done) + tracked
  {
  }

  function TrackedBy(info: map<WorkerId, WorkerInfo>, ws: set<WorkerId>): set<TaskId> {
    set w, id | w in ws && w in info && id in info[w].tracked :: id
  }

  // The tasks of all dead workers but `todo` have been visited.
  ghost predicate Covered(ids: seq<TaskId>, info: map<WorkerId, WorkerInfo>, dead: set<WorkerId>, todo: set<WorkerId>) {
    todo <= dead <= info.Keys && Elems(ids) == TrackedBy(info, dead - todo)
  }

  lemma CoverOne(ids: seq<TaskId>, ids': seq<TaskId>, info: map<WorkerId, WorkerInfo>, dead: set<WorkerId>, todo: set<WorkerId>, w: WorkerId)
    requires Covered(ids, info, dead, todo) && w in todo && Elems(ids') == Elems(ids) + info[w].tracked
    ensures Covered(ids', info, dead, todo - {w})
  {
    TrackedByOneMore(info, dead - todo, w);
    assert dead - (todo - {w}) == (dead - todo) + {w};
  }

  lemma CoveredAll(ids: seq<TaskId>, info: map<WorkerId, WorkerInfo>, dead: set<WorkerId>)
    requires Covered(ids, info, dead, {})
    ensures Elems(ids) == TrackedBy(info, dead)
  {
    assert dead - {} == dead;
  }

  lemma OrphansTracked(r: Workers, dead: set<WorkerId>, now: real)
    requires dead == Dead(r, now)
    ensures TrackedBy(r.info, dead) == Orphans(r, now)
  {
  }

  lemma TrackedByOneMore(info: map<WorkerId, WorkerInfo>, ws: set<WorkerId>, w: WorkerId)
    requires w in info
    ensures TrackedBy(info, ws + {w}) == TrackedBy(info, ws) + info[w].tracked
  {
  }

  /** After requeueing ids from `start`, the manager is m and the count has grown by the requeues that succeeded. */
  ghost predicate Returned(start: QueueState, base: nat, ids: seq<TaskId>, m: QueueState, reassigned: nat) {
    && Queues.Valid(start) && Queues.Valid(m)
    && m == RequeueAll(start, ids)
    && reassigned == base + |Elems(ids) * start.inFlight|
  }

  lemma NoneReturned(start: QueueState, base: nat)
    requires Queues.Valid(start)
    ensures Returned(start, base, [], start, base)
  {
    assert Elems<TaskId>([]) * start.inFlight == {};
  }

  lemma {:induction false} RequeueAppend(s: QueueState, ids: seq<TaskId>, id: TaskId)
    requires Queues.Valid(s)
    ensures RequeueAll(s, ids + [id]) == RequeueById(RequeueAll(s, ids), id)
    decreases |ids|
  {
    if ids == [] {
      assert ids + [id] == [id] && [id][1..] == [];
    } else {
      assert (ids + [id])[0] == ids[0] && (ids + [id])[1..] == ids[1..] + [id];
      RequeueAppend(RequeueById(s, ids[0]), ids[1..], id);
    }
  }

  lemma OneMore(a: set<TaskId>, b: set<TaskId>, x: TaskId)
    ensures |(a + {x}) * b| == |a * b| + if x in b - a then 1 else 0
  {
    if x in b - a {
      assert (a + {x}) * b == a * b + {x};
    } else {
      assert (a + {x}) * b == a * b;
    }
  }

  /** A requeue succeeds exactly for a task that was in flight and not yet returned. */
  lemma ReturnCount(ids: seq<TaskId>, inFlight: set<TaskId>, id: TaskId)
    ensures |Elems(ids + [id]) * inFlight| == |Elems(ids) * inFlight| + if id in inFlight - Elems(ids) then 1 else 0
  {
    assert Elems(ids + [id]) == Elems(ids) + {id};
    OneMore(Elems(ids), inFlight, id);
  }

  lemma ReturnedMore(start: QueueState, base: nat, ids: seq<TaskId>, m: QueueState, reassigned: nat, id: TaskId)
    requires Returned(start, base, ids, m, reassigned)
    ensures Returned(start, base, ids + [id], RequeueById(m, id), reassigned + if id in m.inFlight then 1 else 0)
  {
    RequeueAppend(start, ids, id);
    InFlightAfter(start, ids);
    ReturnCount(ids, start.inFlight, id);
  }

  lemma InFlightAfter(s: QueueState, ids: seq<TaskId>)
    requires Queues.Valid(s)
    ensures RequeueAll(s, ids).inFlight == s.inFlight - Elems(ids)
  {
    Placement.RequeueAllWrites(s, ids);
  }

  lemma AddedAtBack(m: QueueState, t: TaskRecord)
    requires Queues.Valid(m)
    ensures var m' := Add(m, t); t.queue in m'.queues && t.id in m'.queues[t.queue] && t.id in m'.tasks && m'.tasks[t.id] == t
  {
    var q := Add(m, t).queues[t.queue];
    assert q[|q| - 1] == t.id;
  }

  datatype Response =
    | Error
    | RateLimited(retryAfter: real)
    | Accepted(id: TaskId)
    | Given(id: TaskId, queue: QueueName, payload: Payload, attempts: nat)
    | NothingToDo
    | Ok
    | Failed(dead: bool, attempts: nat)
    | Replayed(original: TaskId, replacement: TaskId)
    | Purged(count: nat)

  /** The answer to a CONSUME: the task handed out, with its attempt number. */
  function Offer(b: Broker, n: QueueName, w: WorkerId): Response
    requires Queues.Valid(b.mgr)
  {
    match Delivery(b, n, w)
    case None => NothingToDo
    case Some(id) =>
      var t := b.mgr.tasks[id];
      Given(id, t.queue, t.payload, t.attempts + 1)
  }

  /** The answer to a NACK. */
  function Verdict(m: QueueState, id: TaskId): Response
    requires Queues.Valid(m)
  {
    if id !in m.inFlight then Error else Failed(Exhausted(m, id), m.tasks[id].attempts)
  }

  class Server {
    const manager: QM.QueueManager
    const registry: WorkerRegistry
    const store: WALStore

    ghost function View(): Broker
      reads manager, manager.deadLetters, manager.objects.Values, registry, store
    {
      Broker(manager.View(), registry.View(), store.View())
    }

    ghost predicate Valid()
      reads manager, manager.deadLetters, manager.objects.Values
    {
      Queues.Valid(manager.View()) && registry.manager == manager
    }

    /** A server opened on a database with these committed rows, before recovery. */
    constructor (maxRetries: int, tasks: map<TaskId, Row>, dlq: map<TaskId, DlqRow>)
      ensures Valid() && View() == Broker(Empty(maxRetries), NoWorkers, Tables(tasks, dlq))
    {
      var m := new QM.QueueManager(maxRetries);
      manager := m;
      registry := new WorkerRegistry(m);
      store := new WALStore(tasks, dlq);
    }

    /** Search a queue backwards for a task, as the handlers do to find the task just enqueued. */
    method FindQueued(n: QueueName, id: TaskId) returns (task: QM.Task?)
      requires Valid() && id in manager.objects
      ensures task == (if n in manager.queues && id in manager.queues[n] then manager.objects[id] else null)
    {
      task := null;
      if n in manager.queues {
        var q := manager.queues[n];
        var i := |q|;
        while i > 0
          invariant 0 <= i <= |q| && id !in q[i..] && task == null
        {
          i := i - 1;
          if q[i] == id {
            return manager.objects[id];
          }
        }
      }
    }

    /** Persist a task found in its queue. */
    method SaveQueued(n: QueueName, id: TaskId)
      requires Valid() && id in manager.objects && n in manager.queues && id in manager.queues[n]
      modifies store
      ensures id in manager.View().tasks && store.View() == SaveTask(old(store.View()), manager.View().tasks[id])
      ensures manager.View() == old(manager.View()) && store.log == old(store.log) + [store.View()]
    {
      var task := FindQueued(n, id);
      assert task.Record() == manager.View().tasks[id];
      store.Save(task.Record());
    }

    /** Enqueue a new task and persist it. */
    method Issue(n: QueueName, payload: Payload, id: TaskId, now: real)
      requires Valid() && id !in manager.objects
      modifies manager, store
      ensures View() == old(View()).(mgr := Add(old(View()).mgr, NewTask(id, n, payload, now, 0)),
                                     store := SaveTask(old(View()).store, NewTask(id, n, payload, now, 0)))
      ensures store.log == old(store.log) + [store.View()]
    {
      AddedAtBack(manager.View(), NewTask(id, n, payload, now, 0));
      manager.Enqueue(n, payload, id, now, 0);
      SaveQueued(n, id);
    }

    method HandleProduce(queue: QueueName, payload: Option<Payload>, id: TaskId, now: real, allowed: bool, hint: real)
      returns (r: Response)
      requires Valid() && id !in manager.objects
      modifies manager, store
      ensures queue == "" || payload.None? ==> r == Error && View() == old(View()) && store.log == old(store.log)
      ensures queue != "" && payload.Some? && !allowed ==>
        r == RateLimited(hint) && View() == old(View()) && store.log == old(store.log)
      ensures queue != "" && payload.Some? && allowed ==>
        r == Accepted(id) && View() == DoProduce(old(View()), queue, payload.value, id, now) &&
        store.log == old(store.log) + Commits(old(View()), Produce(queue, payload.value, id, now))
    {
      if queue == "" || payload.None? {
        return Error;
      }
      if !allowed {
        return RateLimited(hint);
      }
      Issue(queue, payload.value, id, now);
      return Accepted(id);
    }

    /** Track and persist a delivery. */
    method NoteDelivery(w: WorkerId, id: TaskId, attempts: nat)
      modifies registry, store
      ensures registry.View() == Registry.Assign(old(registry.View()), w, id)
      ensures store.View() == UpdateStatus(old(store.View()), id, InFlight, Some(attempts), Some(w))
      ensures manager.View() == old(manager.View()) && store.log == old(store.log) + [store.View()]
    {
      registry.AssignTask(w, id);
      var _ := store.Update(id, InFlight, Some(attempts), Some(w));
    }

    /** Stop tracking a task and persist its new status. */
    method NoteAnswer(w: WorkerId, id: TaskId, status: Status, attempts: Option<nat>)
      modifies registry, store
      ensures registry.View() == Complete(old(registry.View()), w, id)
      ensures store.View() == UpdateStatus(old(store.View()), id, status, attempts, None)
      ensures manager.View() == old(manager.View()) && store.log == old(store.log) + [store.View()]
    {
      registry.CompleteTask(w, id);
      var _ := store.Update(id, status, attempts, None);
    }

    /** Stop tracking a task and persist it as a dead letter. */
    method NoteDeath(w: WorkerId, id: TaskId, queue: QueueName, attempts: nat)
      requires Valid()
      modifies registry, store
      ensures registry.View() == Complete(old(registry.View()), w, id)
      ensures store.View() == AddToDlq(old(store.View()), DlqRow(id, queue, FoundPayload(old(manager.View()), id), attempts))
      ensures manager.View() == old(manager.View()) && store.log == old(store.log) + [store.View()]
    {
      var p := PeekPayload(id);
      registry.CompleteTask(w, id);
      store.MoveToDlq(DlqRow(id, queue, p, attempts));
    }

    /** Dequeue, returning a copy of the task's fields. */
    method Pull(n: QueueName, w: WorkerId) returns (t: Option<TaskRecord>)
      requires Valid()
      modifies manager, manager.objects.Values
      ensures manager.View() == Dequeue(old(manager.View()), n, w).0
      ensures match Dequeue(old(manager.View()), n, w).1
              case Some(id) => t == Some(manager.View().tasks[id])
              case None => t == None
    {
      var task := manager.Dequeue(n, w);
      if task == null {
        return None;
      }
      return Some(task.Record());
    }

    method HandleConsume(queue: QueueName, worker: Option<WorkerId>) returns (r: Response)
      requires Valid()
      modifies manager, manager.objects.Values, registry, store
      ensures queue == "" || worker.None? ==> r == Error && View() == old(View()) && store.log == old(store.log)
      ensures queue != "" && worker.Some? ==>
        View() == DoConsume(old(View()), queue, worker.value) &&
        store.log == old(store.log) + Commits(old(View()), Consume(queue, worker.value)) &&
        r == Offer(old(View()), queue, worker.value)
    {
      if queue == "" || worker.None? {
        return Error;
      }
      r := HandOut(queue, worker.value);
    }

    method HandOut(queue: QueueName, w: WorkerId) returns (r: Response)
      requires Valid() && queue != ""
      modifies manager, manager.objects.Values, registry, store
      ensures View() == DoConsume(old(View()), queue, w)
      ensures store.log == old(store.log) + Commits(old(View()), Consume(queue, w))
      ensures r == Offer(old(View()), queue, w)
    {
      ghost var b := View();
      if Delivery(b, queue, w).Some? {
        OfferRecord(b, queue, w);
      }
      ConsumeCommits(b, queue, w);
      var got := Pull(queue, w);
      if got.None? {
        return NothingToDo;
      }
      var t := got.value;
      NoteDelivery(w, t.id, t.attempts);
      return Given(t.id, t.queue, t.payload, t.attempts);
    }

    /** A missing worker_id counts as one more worker nobody registered. */
    method HandleAck(task: Option<TaskId>, w: WorkerId) returns (r: Response)
      requires Valid()
      modifies manager, manager.objects.Values, registry, store
      ensures task.None? ==> r == Error && View() == old(View()) && store.log == old(store.log)
      ensures task.Some? ==>
        View() == DoAck(old(View()), task.value, w) &&
        store.log == old(store.log) + Commits(old(View()), Ack(task.value, w)) &&
        r == if task.value in old(manager.inFlight) then Ok else Error
    {
      if task.None? {
        return Error;
      }
      var found := manager.Acknowledge(task.value);
      if !found {
        return Error;
      }
      NoteAnswer(w, task.value, Done, None);
      return Ok;
    }

    /** The payload of a dead letter, looked for among the oldest ones only. */
    method PeekPayload(id: TaskId) returns (p: Payload)
      requires Valid()
      ensures p == FoundPayload(manager.View(), id)
    {
      var seen := manager.deadLetters.Peek(PEEK_LIMIT);
      p := NO_PAYLOAD;
      var i := 0;
      while i < |seen|
        invariant 0 <= i <= |seen| && id !in seen[..i] && p == NO_PAYLOAD
      {
        if seen[i] == id {
          assert id in manager.View().dlq;
          assert manager.View().tasks[id].payload == manager.objects[id].payload;
          return manager.objects[id].payload;
        }
        i := i + 1;
      }
    }

    method HandleNack(task: Option<TaskId>, w: WorkerId) returns (r: Response)
      requires Valid()
      modifies manager, manager.deadLetters, manager.objects.Values, registry, store
      ensures task.None? ==> r == Error && View() == old(View()) && store.log == old(store.log)
      ensures task.Some? ==>
        View() == DoNack(old(View()), task.value, w) &&
        store.log == old(store.log) + Commits(old(View()), Nack(task.value, w)) &&
        r == Verdict(old(View()).mgr, task.value)
    {
      if task.None? {
        return Error;
      }
      r := Settle(task.value, w);
    }

    method Settle(id: TaskId, w: WorkerId) returns (r: Response)
      requires Valid()
      modifies manager, manager.deadLetters, manager.objects.Values, registry, store
      ensures View() == DoNack(old(View()), id, w) && r == Verdict(old(View()).mgr, id)
      ensures store.log == old(store.log) + Commits(old(View()), Nack(id, w))
    {
      ghost var before := manager.View();
      var result := manager.NegativeAcknowledge(id);
      if result.NotInFlight? {
        return Error;
      }
      NackWrites(before, id);
      if result.MovedToDlq? {
        NoteDeath(w, id, result.queue, result.attempts);
      } else {
        NoteAnswer(w, id, Pending, Some(result.attempts));
      }
      return Failed(result.MovedToDlq?, result.attempts);
    }

    method HandleReplay(task: Option<TaskId>, newId: TaskId, now: real) returns (r: Response)
      requires Valid() && newId !in manager.objects
      modifies manager, store
      ensures task.None? ==> r == Error && View() == old(View()) && store.log == old(store.log)
      ensures task.Some? ==>
        View() == DoReplay(old(View()), task.value, newId, now) &&
        store.log == old(store.log) + Commits(old(View()), Replay(task.value, newId, now)) &&
        r == if task.value in old(store.dlq) then Replayed(task.value, newId) else Error
    {
      if task.None? {
        return Error;
      }
      r := Reissue(task.value, newId, now);
    }

    method Reissue(id: TaskId, newId: TaskId, now: real) returns (r: Response)
      requires Valid() && newId !in manager.objects
      modifies manager, store
      ensures View() == DoReplay(old(View()), id, newId, now)
      ensures store.log == old(store.log) + Commits(old(View()), Replay(id, newId, now))
      ensures r == if id in old(store.dlq) then Replayed(id, newId) else Error
    {
      var row := store.ReplayDlq(id);
      if row.None? {
        assert store.View() == old(store.View());
        return Error;
      }
      Issue(row.value.queue, row.value.payload, newId, now);
      return Replayed(id, newId);
    }

    method HandlePurge(queue: Option<QueueName>) returns (r: Response)
      requires Valid()
      modifies store
      ensures View() == old(View()).(store := WalStore.PurgeDlq(old(View()).store, queue))
      ensures store.log == old(store.log) + Commits(old(View()), Handlers.PurgeDlq(queue))
      ensures store.tasks == old(store.tasks) && |store.dlq| <= |old(store.dlq)| && r == Purged(|old(store.dlq)| - |store.dlq|)
      ensures forall id :: id in old(store.dlq) ==>
        (id in store.dlq <==> queue.Some? && queue.value != "" && old(store.dlq)[id].queue != queue.value)
    {
      var count := store.Purge(queue);
      return Purged(count);
    }

    method RecoverRow(row: Row, now: real)
      requires Valid() && row.id !in manager.objects
      modifies manager, store
      ensures manager.View() == Add(old(manager.View()), Recovery.Recovered(row, now))
      ensures store.View() == UpdateStatus(old(store.View()), row.id, Pending, Some(row.attempts), None)
      ensures store.log == old(store.log) + [store.View()]
    {
      manager.Enqueue(row.queue, row.payload, row.id, now, row.attempts);
      var _ := store.Update(row.id, Pending, Some(row.attempts), None);
    }

    method RecoverOne(loaded: seq<Row>, i: nat, now: real, ghost st0: Tables)
      requires Valid() && i < |loaded| && DistinctIds(loaded)
      requires RecoveredTo(manager.View(), store.View(), manager.maxRetries, st0, loaded, i, now)
      modifies manager, store
      ensures Valid() && store.log == old(store.log) + [R.Reset(st0, loaded[..i + 1])]
      ensures RecoveredTo(manager.View(), store.View(), manager.maxRetries, st0, loaded, i + 1, now)
    {
      RowFresh(manager.maxRetries, loaded, i, now);
      RecoverNext(manager.View(), store.View(), manager.maxRetries, st0, loaded, i, now);
      RecoverRow(loaded[i], now);
    }

    /** The recovery phase of startup: reload every live row, oldest first, and mark it pending. */
    method Recover(now: real) returns (ghost rows: seq<Row>)
      requires Valid() && manager.View() == Empty(manager.maxRetries) && Keyed(store.View())
      modifies manager, store
      ensures IsLoad(old(store.View()), rows)
      ensures manager.View() == R.Rebuild(Empty(manager.maxRetries), rows, now)
      ensures store.View() == R.Reset(old(store.View()), rows)
      ensures store.log == old(store.log) + R.RecoveryCommits(old(store.View()), rows)
    {
      var loaded := store.LoadPendingTasks();
      rows := loaded;
      var i := 0;
      NothingLogged(store.log, store.View(), loaded);
      while i < |loaded|
        invariant i <= |loaded| && rows == loaded
        invariant RecoveredTo(manager.View(), store.View(), manager.maxRetries, old(store.View()), loaded, i, now)
        invariant Valid() && LoggedTo(store.log, old(store.log), old(store.View()), loaded, i)
      {
        LogOneMore(store.log, old(store.log), old(store.View()), loaded, i);
        RecoverOne(loaded, i, now, old(store.View()));
        i := i + 1;
      }
      LoggedAll(store.log, old(store.log), old(store.View()), loaded);
      assert loaded[..i] == loaded;
    }

    /** One pass of the eviction loop, for some order of the dead workers' tasks. */
    method EvictionPass(now: real) returns (ghost ids: seq<TaskId>)
      requires Valid()
      modifies manager, manager.objects.Values, registry
      ensures Possible(old(View()), Tick(now, ids)) && View() == DoTick(old(View()), now, ids)
    {
      ids := registry.EvictDeadWorkers(now);
    }
  }

  lemma {:induction false} RebuildAppend(m: QueueState, rows: seq<Row>, row: Row, now: real)
    requires Queues.Valid(m)
    ensures R.Rebuild(m, rows + [row], now) == Add(R.Rebuild(m, rows, now), Recovery.Recovered(row, now))
    decreases |rows|
  {
    if rows == [] {
      assert rows + [row] == [row] && [row][1..] == [];
    } else {
      assert (rows + [row])[0] == rows[0] && (rows + [row])[1..] == rows[1..] + [row];
      RebuildAppend(Add(m, Recovery.Recovered(rows[0], now)), rows[1..], row, now);
    }
  }

  lemma {:induction false} ResetAppend(st: Tables, rows: seq<Row>, row: Row)
    ensures R.Reset(st, rows + [row]) == UpdateStatus(R.Reset(st, rows), row.id, Pending, Some(row.attempts), None)
    decreases |rows|
  {
    if rows == [] {
      assert rows + [row] == [row] && [row][1..] == [];
    } else {
      assert (rows + [row])[0] == rows[0] && (rows + [row])[1..] == rows[1..] + [row];
      ResetAppend(UpdateStatus(st, rows[0].id, Pending, Some(rows[0].attempts), None), rows[1..], row);
    }
  }

  /** The recovery loop after i rows. */
  ghost predicate RecoveredTo(m: QueueState, st: Tables, maxRetries: int, st0: Tables, rows: seq<Row>, i: nat, now: real) {
    i <= |rows| && m == R.Rebuild(Empty(maxRetries), rows[..i], now) && st == R.Reset(st0, rows[..i])
  }

  /** The commits of the first i rows have been logged. */
  ghost predicate LoggedTo(log: seq<Tables>, log0: seq<Tables>, st0: Tables, rows: seq<Row>, i: nat) {
    i <= |rows| && log == log0 + R.RecoveryCommits(st0, rows)[..i]
  }

  lemma NothingLogged(log0: seq<Tables>, st0: Tables, rows: seq<Row>)
    ensures LoggedTo(log0, log0, st0, rows, 0)
  {
    assert R.RecoveryCommits(st0, rows)[..0] == [];
  }

  lemma LogOneMore(log: seq<Tables>, log0: seq<Tables>, st0: Tables, rows: seq<Row>, i: nat)
    requires LoggedTo(log, log0, st0, rows, i) && i < |rows|
    ensures LoggedTo(log + [R.Reset(st0, rows[..i + 1])], log0, st0, rows, i + 1)
  {
    var all := R.RecoveryCommits(st0, rows);
    assert all[..i + 1] == all[..i] + [all[i]];
    Regroup(log0, all[..i], [all[i]]);
  }

  lemma LoggedAll(log: seq<Tables>, log0: seq<Tables>, st0: Tables, rows: seq<Row>)
    requires LoggedTo(log, log0, st0, rows, |rows|)
    ensures log == log0 + R.RecoveryCommits(st0, rows)
  {
    var all := R.RecoveryCommits(st0, rows);
    assert all[..|rows|] == all;
  }

  lemma RowFresh(maxRetries: int, rows: seq<Row>, i: nat, now: real)
    requires i < |rows| && DistinctIds(rows)
    ensures rows[i].id !in R.Rebuild(Empty(maxRetries), rows[..i], now).tasks
  {
    assert rows[i].id !in Recovery.RowIds(rows[..i]);
    Recovery.RebuildKeeps(Empty(maxRetries), rows[..i], now, rows[i].id);
  }

  lemma RecoverNext(m: QueueState, st: Tables, maxRetries: int, st0: Tables, rows: seq<Row>, i: nat, now: real)
    requires RecoveredTo(m, st, maxRetries, st0, rows, i, now) && i < |rows|
    ensures Queues.Valid(m)
    ensures RecoveredTo(Add(m, Recovery.Recovered(rows[i], now)),
                        UpdateStatus(st, rows[i].id, Pending, Some(rows[i].attempts), None),
                        maxRetries, st0, rows, i + 1, now)
  {
    assert rows[..i + 1] == rows[..i] + [rows[i]];
    RebuildAppend(Empty(maxRetries), rows[..i], rows[i], now);
    ResetAppend(st0, rows[..i], rows[i]);
  }

  lemma ConsumeCommits(b: Broker, n: QueueName, w: WorkerId)
    requires Queues.Valid(b.mgr)
    ensures Commits(b, Consume(n, w)) == if Delivery(b, n, w).None? then [] else [DoConsume(b, n, w).store]
  {
    DeliveredAttempts(b.mgr, n, w);
  }

  lemma OfferRecord(b: Broker, n: QueueName, w: WorkerId)
    requires Queues.Valid(b.mgr) && Delivery(b, n, w).Some?
    ensures var id := Delivery(b, n, w).value;
      var t := Dequeue(b.mgr, n, w).0.tasks[id];
      t.id == id && Offer(b, n, w) == Given(id, t.queue, t.payload, t.attempts)
  {
    var id := Delivery(b, n, w).value;
    assert Dequeue(b.mgr, n, w).0.tasks[id] == Deliver(b.mgr.tasks[id], w);
  }
}
