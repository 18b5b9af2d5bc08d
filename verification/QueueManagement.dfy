/**
 The queue manager and the dead letter queue as objects that update task objects in place.
 Every method is proved to perform the corresponding transition of `Queues` on the manager's view.

 Containers refer to task objects by id; `objects` resolves a reference.
 */
module QueueManagement {
  import opened Tasks
  import opened Queues

  class Task {
    const id: TaskId
    const queue: QueueName
    const payload: Payload
    const createdAt: real
    var status: Status
    var worker: Option<WorkerId>
    var attempts: nat

    constructor (id: TaskId, queue: QueueName, payload: Payload, createdAt: real, attempts: nat)
      ensures Record() == NewTask(id, queue, payload, createdAt, attempts)
    {
      this.id, this.queue, this.payload, this.createdAt := id, queue, payload, createdAt;
      status, worker, this.attempts := Pending, None, attempts;
    }

    function Record(): TaskRecord
      reads this
    {
      TaskRecord(id, queue, payload, status, createdAt, worker, attempts)
    }
  }

  class DeadLetterQueue {
    var tasks: seq<TaskId>       // insertion order
    var received: nat
    var retried: nat
    var purged: nat

    constructor ()
      ensures tasks == [] && received == retried == purged == 0
    {
      tasks, received, retried, purged := [], 0, 0, 0;
    }

    method Add(task: Task)
      modifies this`tasks, this`received, task`status
      ensures task.status == DeadLettered
      ensures tasks == PutDlq(old(tasks), task.id) && received == old(received) + 1
    {
      task.status := DeadLettered;
      if task.id !in tasks {
        tasks := tasks + [task.id];
      }
      received := received + 1;
    }

    /** Pop a task by id: `remove`, and the first critical section of `retry`. */
    method Take(id: TaskId) returns (found: bool)
      modifies this`tasks
      ensures found == (id in old(tasks))
      ensures tasks == if found then RemoveAt(old(tasks), IndexOf(old(tasks), id)) else old(tasks)
    {
      found := id in tasks;
      if found {
        tasks := RemoveAt(tasks, IndexOf(tasks, id));
      }
    }

    method Purge() returns (count: nat)
      modifies this`tasks, this`purged
      ensures count == |old(tasks)| && tasks == [] && purged == old(purged) + count
    {
      count := |tasks|;
      tasks, purged := [], purged + count;
    }

    /** The ids `peek(limit)` shows, oldest first. */
    function Peek(limit: nat): seq<TaskId>
      reads this
    {
      if limit < |tasks| then tasks[..limit] else tasks
    }
  }

  datatype NackResult = NotInFlight | Requeued(queue: QueueName, attempts: nat) | MovedToDlq(queue: QueueName, attempts: nat)

  function Outcome(t: TaskRecord, maxRetries: int): NackResult {
    if t.attempts >= maxRetries then MovedToDlq(t.queue, t.attempts) else Requeued(t.queue, t.attempts)
  }

  class QueueManager {
    const maxRetries: int
    const deadLetters: DeadLetterQueue
    var objects: map<TaskId, Task>
    var names: seq<QueueName>
    var queues: map<QueueName, seq<TaskId>>
    var inFlight: set<TaskId>
    var completed: set<TaskId>
    var enqueued: nat
    var dequeued: nat
    var acked: nat
    var nacked: nat
    var dead: nat

    ghost function Heap(): map<TaskId, TaskRecord>
      reads this`objects, objects.Values
    {
      map id | id in objects :: objects[id].Record()
    }

    ghost function View(): QueueState
      reads this, deadLetters, objects.Values
    {
      QueueState(
        Heap(), names, queues, inFlight, completed, deadLetters.tasks, maxRetries,
        Counters(enqueued, dequeued, acked, nacked, dead,
                 deadLetters.received, deadLetters.retried, deadLetters.purged))
    }

    ghost predicate Valid()
      reads this, deadLetters, objects.Values
    {
      Queues.Valid(View())
    }

    constructor (maxRetries: int)
      ensures View() == Empty(maxRetries) && fresh(deadLetters) && objects == map[]
    {
      this.maxRetries := maxRetries;
      deadLetters := new DeadLetterQueue();
      objects, names, queues, inFlight, completed := map[], [], map[], {}, {};
      enqueued, dequeued, acked, nacked, dead := 0, 0, 0, 0, 0;
    }

    method EnsureQueue(n: QueueName)
      requires Valid()
      modifies this`names, this`queues
      ensures View() == Queues.EnsureQueue(old(View()), n)
    {
      if n !in queues {
        queues := queues[n := []];
        names := names + [n];
      }
    }

    /** Assign the mutable fields of one task object. */
    method Assign(task: Task, status: Status, worker: Option<WorkerId>, attempts: nat)
      requires Valid() && task.id in objects && objects[task.id] == task
      modifies task
      ensures View() == Write(old(View()), old(task.Record()).(status := status, worker := worker, attempts := attempts))
    {
      ghost var before := View();
      task.status, task.worker, task.attempts := status, worker, attempts;
      forall id | id in objects && id != task.id ensures objects[id].Record() == before.tasks[id] {
        assert before.tasks[id].id == id;
      }
      assert View().tasks == before.tasks[task.id := task.Record()];
    }

    method Create(id: TaskId, n: QueueName, payload: Payload, now: real, attempts: nat)
      requires Valid() && id !in objects
      modifies this`objects
      ensures View() == Write(old(View()), NewTask(id, n, payload, now, attempts))
      ensures id in objects && fresh(objects[id]) && objects == old(objects)[id := objects[id]]
    {
      var task := new Task(id, n, payload, now, attempts);
      ghost var before := View();
      objects := objects[id := task];
      forall x | x in before.tasks ensures objects[x].Record() == before.tasks[x] {
      }
      assert View().tasks == before.tasks[id := task.Record()];
    }

    method Append(n: QueueName, id: TaskId)
      requires Valid() && id in objects
      modifies this`names, this`queues
      ensures View() == PushBack(old(View()), n, id)
    {
      EnsureQueue(n);
      queues := queues[n := queues[n] + [id]];
    }

    method AppendLeft(n: QueueName, id: TaskId)
      requires Valid() && id in objects
      modifies this`names, this`queues
      ensures View() == PushFront(old(View()), n, id)
    {
      EnsureQueue(n);
      queues := queues[n := [id] + queues[n]];
    }

    /** enqueue (attempts = 0) and enqueue_recovered. */
    method Enqueue(n: QueueName, payload: Payload, id: TaskId, now: real, attempts: nat)
      requires Valid() && id !in objects
      modifies this
      ensures View() == Add(old(View()), NewTask(id, n, payload, now, attempts))
      ensures id in objects && fresh(objects[id]) && objects == old(objects)[id := objects[id]]
    {
      Create(id, n, payload, now, attempts);
      Append(n, id);
      CountEnqueued();
    }

    method CountEnqueued()
      modifies this`enqueued
      ensures View() == old(View()).(count := old(View()).count.(enqueued := old(View()).count.enqueued + 1))
    {
      enqueued := enqueued + 1;
    }

    /** Which queue a wildcard CONSUME serves. */
    method FindNonEmpty() returns (target: Option<QueueName>)
      requires Valid()
      ensures target == FirstNonEmpty(View().names, View().queues)
    {
      var i := 0;
      while i < |names|
        invariant 0 <= i <= |names|
        invariant FirstNonEmpty(names, queues) == FirstNonEmpty(names[i..], queues)
      {
        if queues[names[i]] != [] {
          return Some(names[i]);
        }
        i := i + 1;
      }
      return None;
    }

    method Dequeue(n: QueueName, w: WorkerId) returns (task: Task?)
      requires Valid()
      modifies this, objects.Values
      ensures View() == Queues.Dequeue(old(View()), n, w).0
      ensures objects == old(objects)
      ensures match Queues.Dequeue(old(View()), n, w).1
              case Some(id) => id in objects && task == objects[id]
              case None => task == null
    {
      var src := n;
      if n == WILDCARD {
        var target := FindNonEmpty();
        if target.None? || target.value == "" {
          return null;
        }
        src := target.value;
      } else {
        EnsureQueue(n);
        if queues[n] == [] {
          return null;
        }
      }
      task := PopLeft(src, w);
    }

    method PopLeft(src: QueueName, w: WorkerId) returns (task: Task)
      requires Valid() && src in queues && queues[src] != []
      modifies this, objects.Values
      ensures objects == old(objects) && View() == Pop(old(View()), src, w)
      ensures task.id == old(queues[src][0]) && task.id in objects && objects[task.id] == task
    {
      var id := queues[src][0];
      assert id in View().queues[src] && id in View().tasks && View().tasks[id].id == id;
      task := objects[id];
      MarkDelivered(id, w);
      Launch(src, id);
    }

    method MarkDelivered(id: TaskId, w: WorkerId)
      requires Valid() && id in objects
      modifies objects[id]
      ensures View() == Write(old(View()), Deliver(old(View()).tasks[id], w))
    {
      var task := objects[id];
      assert View().tasks[id].id == id;
      Assign(task, InFlight, Some(w), task.attempts + 1);
    }

    method Launch(src: QueueName, id: TaskId)
      requires src in queues && queues[src] != []
      modifies this`queues, this`inFlight, this`dequeued
      ensures var v := old(View());
        View() == v.(queues := v.queues[src := v.queues[src][1..]], inFlight := v.inFlight + {id},
                     count := v.count.(dequeued := v.count.dequeued + 1))
    {
      queues, inFlight, dequeued := queues[src := queues[src][1..]], inFlight + {id}, dequeued + 1;
    }

    method Acknowledge(id: TaskId) returns (found: bool)
      requires Valid()
      modifies this, objects.Values
      ensures View() == Queues.Acknowledge(old(View()), id)
      ensures objects == old(objects) && found == (id in old(inFlight))
    {
      found := id in inFlight;
      if found {
        var task := objects[id];
        assert View().tasks[id].id == id;
        Assign(task, Done, task.worker, task.attempts);
        inFlight, completed, acked := inFlight - {id}, completed + {id}, acked + 1;
      }
    }

    /** First critical section of negative_acknowledge. */
    method NackTake(id: TaskId) returns (held: Option<Held>)
      requires Valid()
      modifies this, objects.Values
      ensures objects == old(objects) && (View(), held) == Queues.NackTake(old(View()), id)
    {
      if id !in inFlight {
        return None;
      }
      var task := objects[id];
      assert View().tasks[id].id == id;
      var exhausted := task.attempts >= maxRetries;
      Assign(task, if exhausted then DeadLettered else Pending, if exhausted then task.worker else None, task.attempts);
      ghost var v := View();
      inFlight, nacked, dead := inFlight - {id}, nacked + 1, dead + if exhausted then 1 else 0;
      assert View() == v.(inFlight := v.inFlight - {id}, count := v.count.(nacked := nacked, deadLettered := dead));
      held := Some(Held(id, if exhausted then ToDlq else ToFront));
    }

    method MoveToDlq(id: TaskId)
      requires Valid() && id in objects
      modifies deadLetters, objects[id]
      ensures View() == PutDead(old(View()), id)
    {
      var task := objects[id];
      assert View().tasks[id].id == id;
      Assign(task, DeadLettered, task.worker, task.attempts);
      deadLetters.Add(task);
    }

    /** requeue(front=False). */
    method Requeue(id: TaskId, front: bool)
      requires Valid() && id in objects
      modifies this`names, this`queues, objects[id]
      ensures var v := old(View());
        View() == if front then PushFront(Write(v, v.tasks[id].(status := Pending, worker := None)), v.tasks[id].queue, id)
                  else Queues.Requeue(v, id)
    {
      if front {
        PutBack(id);
        return;
      }
      var task := objects[id];
      assert View().tasks[id].id == id;
      Assign(task, Pending, None, task.attempts);
      Append(task.queue, id);
    }

    method CountRetried()
      modifies deadLetters`retried
      ensures View() == var s := old(View()); s.(count := s.count.(retried := s.count.retried + 1))
    {
      deadLetters.retried := deadLetters.retried + 1;
    }

    /** Second critical section: what the coroutine holding the task does next. */
    method Release(held: Held)
      requires Valid() && held.id in objects
      modifies this, deadLetters, objects.Values
      ensures objects == old(objects) && View() == Queues.Release(old(View()), held)
    {
      match held.goal
      case ToDlq =>
        MoveToDlq(held.id);
      case ToFront =>
        AppendLeft(objects[held.id].queue, held.id);
      case ToBack =>
        Requeue(held.id, false);
        CountRetried();
    }

    method NegativeAcknowledge(id: TaskId) returns (result: NackResult)
      requires Valid()
      modifies this, deadLetters, objects.Values
      ensures objects == old(objects) && View() == Nack(old(View()), id)
      ensures result.NotInFlight? <==> id !in old(inFlight)
      ensures id in old(inFlight) ==> id in old(View()).tasks && result == Outcome(old(View()).tasks[id], maxRetries)
    {
      var held := NackTake(id);
      if held.None? {
        return NotInFlight;
      }
      var task := objects[id];
      assert View().tasks[id].id == id;
      Release(held.value);
      result := if held.value.goal == ToDlq then MovedToDlq(task.queue, task.attempts)
                else Requeued(task.queue, task.attempts);
    }

    method RequeueById(id: TaskId) returns (found: bool)
      requires Valid()
      modifies this, objects.Values
      ensures objects == old(objects) && View() == Queues.RequeueById(old(View()), id)
      ensures found == (id in old(inFlight))
    {
      found := id in inFlight;
      if found {
        PutBack(id);
        Land(id);
      }
    }

    /** Make a task pending again at the head of its queue. */
    method PutBack(id: TaskId)
      requires Valid() && id in objects
      modifies this`names, this`queues, objects[id]
      ensures var v := old(View());
        View() == PushFront(Write(v, v.tasks[id].(status := Pending, worker := None)), v.tasks[id].queue, id)
    {
      var task := objects[id];
      assert View().tasks[id].id == id;
      Assign(task, Pending, None, task.attempts);
      AppendLeft(task.queue, id);
    }

    method Land(id: TaskId)
      modifies this`inFlight
      ensures View() == old(View()).(inFlight := old(View()).inFlight - {id})
    {
      inFlight := inFlight - {id};
    }

    /** DeadLetterQueue.remove. */
    method TakeDead(id: TaskId) returns (found: bool)
      requires Valid()
      modifies deadLetters
      ensures View() == DlqRemove(old(View()), id) && found == (id in old(deadLetters.tasks))
    {
      found := deadLetters.Take(id);
    }

    /** DeadLetterQueue.retry: both critical sections, with the reset between them. */
    method RetryDead(id: TaskId) returns (found: bool)
      requires Valid()
      modifies this, deadLetters, objects.Values
      ensures objects == old(objects) && found == (id in old(deadLetters.tasks))
      ensures var (s, h) := RetryTake(old(View()), id);
        View() == if h.Some? then Queues.Release(s, h.value) else s
    {
      found := TakeDead(id);
      if found {
        var task := objects[id];
        assert View().tasks[id].id == id;
        Assign(task, Pending, None, 0);
        Release(Held(id, ToBack));
      }
    }
  }
}
