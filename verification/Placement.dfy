/**
 Between handlers no coroutine holds a task and nothing has been discarded from memory,
 so the one-place invariant of `Lifecycle` reads: a task's status names its container.
 */
module Placement {
  import opened Tasks
  import opened Queues
  import L = Lifecycle

  function Quiet(m: QueueState): L.System {
    L.System(m, [], {}, 0, 0)
  }

  ghost predicate Placed(m: QueueState) {
    L.Inv(Quiet(m))
  }

  predicate Queued(m: QueueState, id: TaskId)
    requires id in m.tasks
  {
    m.tasks[id].queue in m.queues && id in m.queues[m.tasks[id].queue]
  }

  /** The status of a task and the container that holds it determine each other. */
  lemma StatusIsPlace(m: QueueState, id: TaskId)
    requires Placed(m) && id in m.tasks
    ensures m.tasks[id].status == Pending <==> Queued(m, id)
    ensures m.tasks[id].status == InFlight <==> id in m.inFlight
    ensures m.tasks[id].status == Done <==> id in m.completed
    ensures m.tasks[id].status == DeadLettered <==> id in m.dlq
    ensures id in m.inFlight ==> m.tasks[id].attempts >= 1
    ensures m.tasks[id].id == id
  {
    assert L.Good(Quiet(m), id);
    assert L.HeldIds([]) == [];
  }

  lemma QueueIsPending(m: QueueState, n: QueueName, i: nat)
    requires Placed(m) && n in m.queues && i < |m.queues[n]|
    ensures var id := m.queues[n][i];
      id in m.tasks && m.tasks[id].queue == n && m.tasks[id].status == Pending && id !in m.inFlight
  {
    var id := m.queues[n][i];
    assert id in m.queues[n];
    StatusIsPlace(m, id);
  }

  lemma NoRepeats(m: QueueState, n: QueueName, i: nat, j: nat)
    requires Placed(m) && n in m.queues && i < |m.queues[n]| && j < |m.queues[n]| && m.queues[n][i] == m.queues[n][j]
    ensures i == j
  {
    var id := m.queues[n][i];
    assert id in m.queues[n];
    assert L.Good(Quiet(m), id);
    L.AtMostOnce(m.queues[n], i, j);
  }

  lemma AddPlaced(m: QueueState, t: TaskRecord)
    requires Placed(m) && t.id !in m.tasks && t.status == Pending
    ensures Placed(Add(m, t))
  {
    L.WriteOwn(m, t);
    L.PushOwn(Write(m, t), t.id);
    forall x | x in Add(m, t).tasks ensures L.Good(Quiet(Add(m, t)), x) {
      L.AddGood(Quiet(m), t, x);
    }
  }

  lemma DequeuePlaced(m: QueueState, n: QueueName, w: WorkerId)
    requires Placed(m)
    ensures Placed(Dequeue(m, n, w).0)
  {
    L.StepKeepsInv(Quiet(m), L.Consume(n, w));
  }

  lemma AckPlaced(m: QueueState, id: TaskId)
    requires Placed(m)
    ensures Placed(Acknowledge(m, id))
  {
    L.StepKeepsInv(Quiet(m), L.Ack(id));
  }

  lemma NackPlaced(m: QueueState, id: TaskId)
    requires Placed(m)
    ensures Placed(Nack(m, id))
  {
    if id in m.inFlight {
      var s := Quiet(m);
      L.StepKeepsInv(s, L.NackFirst(id));
      var s1 := L.Step(s, L.NackFirst(id));
      assert s1.held == [NackTake(m, id).1.value];
      assert RemoveAt(s1.held, 0) == [];
      L.StepKeepsInv(s1, L.Second(0));
      assert L.Step(s1, L.Second(0)) == Quiet(Nack(m, id));
    }
  }

  lemma RequeuePlaced(m: QueueState, id: TaskId)
    requires Placed(m)
    ensures Placed(RequeueById(m, id))
  {
    L.RequeueOwn(m, id);
    forall x | x in RequeueById(m, id).tasks ensures L.Good(Quiet(RequeueById(m, id)), x) {
      L.RequeueGood(Quiet(m), id, x);
    }
  }

  lemma {:induction false} RequeueAllPlaced(m: QueueState, ids: seq<TaskId>)
    requires Placed(m)
    ensures Placed(RequeueAll(m, ids))
    decreases |ids|
  {
    if ids != [] {
      RequeuePlaced(m, ids[0]);
      RequeueAllPlaced(RequeueById(m, ids[0]), ids[1..]);
    }
  }

  // What the transitions write, task by task.

  lemma DequeueWrites(m: QueueState, n: QueueName, w: WorkerId)
    requires Placed(m)
    ensures var (m', got) := Dequeue(m, n, w);
      if got.None? then m'.tasks == m.tasks && m'.inFlight == m.inFlight
      else
        var id := got.value;
        && id in m.tasks && m.tasks[id].status == Pending && Queued(m, id) && m.queues[m.tasks[id].queue][0] == id
        && m'.tasks == m.tasks[id := Deliver(m.tasks[id], w)] && m'.inFlight == m.inFlight + {id}
  {
    var src := Source(m, n);
    if src.Some? {
      QueueIsPending(m, src.value, 0);
      PopWrites(m, n, src.value, w);
    }
  }

  lemma PopWrites(m: QueueState, n: QueueName, src: QueueName, w: WorkerId)
    requires Valid(m) && Source(m, n) == Some(src)
    ensures var id, m' := m.queues[src][0], Dequeue(m, n, w).0;
      && id in m.tasks && m.tasks[id].id == id
      && m'.tasks == m.tasks[id := Deliver(m.tasks[id], w)] && m'.inFlight == m.inFlight + {id}
  {
    assert m.queues[src][0] in m.queues[src];
  }

  function Returned(t: TaskRecord): TaskRecord {
    t.(status := Pending, worker := None)
  }

  function ReturnAll(tasks: map<TaskId, TaskRecord>, ids: set<TaskId>): map<TaskId, TaskRecord> {
    map id | id in tasks :: if id in ids then Returned(tasks[id]) else tasks[id]
  }

  lemma RequeueWrites(m: QueueState, id: TaskId)
    requires Valid(m)
    ensures var m' := RequeueById(m, id);
      && m'.tasks == ReturnAll(m.tasks, {id} * m.inFlight)
      && m'.inFlight == m.inFlight - {id}
      && m'.completed == m.completed && m'.dlq == m.dlq && m'.maxRetries == m.maxRetries
  {
  }

  lemma ReturnTwice(tasks: map<TaskId, TaskRecord>, a: set<TaskId>, b: set<TaskId>, c: set<TaskId>)
    requires c == a + b
    ensures ReturnAll(ReturnAll(tasks, a), b) == ReturnAll(tasks, c)
  {
  }

  lemma {:induction false} RequeueAllWrites(m: QueueState, ids: seq<TaskId>)
    requires Valid(m)
    ensures var m' := RequeueAll(m, ids);
      && m'.tasks == ReturnAll(m.tasks, Elems(ids) * m.inFlight)
      && m'.inFlight == m.inFlight - Elems(ids)
      && m'.completed == m.completed && m'.dlq == m.dlq && m'.maxRetries == m.maxRetries
    decreases |ids|
  {
    if ids == [] {
      assert ReturnAll(m.tasks, {}) == m.tasks;
      assert Elems(ids) * m.inFlight == {};
    } else {
      var m1 := RequeueById(m, ids[0]);
      RequeueWrites(m, ids[0]);
      RequeueAllWrites(m1, ids[1..]);
      assert Elems(ids) == Elems(ids[1..]) + {ids[0]};
      ReturnTwice(m.tasks, {ids[0]} * m.inFlight, Elems(ids[1..]) * m1.inFlight, Elems(ids) * m.inFlight);
    }
  }

  // --------------------------------------------------------------- dead letter retry

  function Retried(m: QueueState, id: TaskId): (r: QueueState)
    requires Valid(m) && id in m.dlq
    ensures Valid(r)
  {
    var (m1, h) := RetryTake(m, id);
    Release(m1, h.value)
  }

  lemma RetryWrites(m: QueueState, id: TaskId)
    requires Valid(m) && id in m.dlq
    ensures var m' := Retried(m, id);
      && m'.tasks == m.tasks[id := m.tasks[id].(status := Pending, attempts := 0, worker := None)]
      && m'.dlq == RemoveAt(m.dlq, IndexOf(m.dlq, id))
      && m'.inFlight == m.inFlight && m'.completed == m.completed
      && m'.count == m.count.(retried := m.count.retried + 1)
  {
  }

  lemma RetryQueues(m: QueueState, id: TaskId)
    requires Valid(m) && id in m.dlq
    ensures var m', n := Retried(m, id), m.tasks[id].queue;
      n in m'.queues && m'.queues[n] == (if n in m.queues then m.queues[n] else []) + [id]
  {
  }

  /**
   A retried dead letter starts afresh: it leaves the dead letters, whose order is otherwise kept, and waits at the
   back of its own queue with no attempt and no worker; every other task is as it was.
   */
  lemma RetryStartsAfresh(m: QueueState, id: TaskId, k: nat)
    requires Placed(m) && k < |m.dlq| && m.dlq[k] == id
    ensures id in m.tasks
    ensures var m', n := Retried(m, id), m.tasks[id].queue;
      && m'.tasks == m.tasks[id := m.tasks[id].(status := Pending, attempts := 0, worker := None)]
      && m'.dlq == m.dlq[..k] + m.dlq[k + 1..]
      && n in m'.queues && m'.queues[n] == (if n in m.queues then m.queues[n] else []) + [id]
      && m'.inFlight == m.inFlight && m'.completed == m.completed
      && m'.count == m.count.(retried := m.count.retried + 1)
  {
    DeadOnce(m, id, k);
    RetryWrites(m, id);
    RetryQueues(m, id);
  }

  lemma RetryLeavesOthers(m: QueueState, id: TaskId, n: QueueName)
    requires Valid(m) && id in m.dlq && n != m.tasks[id].queue
    ensures n in Retried(m, id).queues <==> n in m.queues
    ensures n in m.queues ==> Retried(m, id).queues[n] == m.queues[n]
  {
  }

  lemma DeadOnce(m: QueueState, id: TaskId, k: nat)
    requires Placed(m) && k < |m.dlq| && m.dlq[k] == id
    ensures IndexOf(m.dlq, id) == k
  {
    assert id in m.dlq;
    assert L.Good(Quiet(m), id);
    L.AtMostOnce(m.dlq, IndexOf(m.dlq, id), k);
  }
}
