/**
 The shape of a queue: already-attempted tasks in front, then never-attempted tasks in creation
 order; and every attempted task is older than every never-attempted one of the same queue.
 */
module QueueShape {
  import opened Tasks
  import opened Queues
  import opened Runs
  import opened Placement

  function Attempts(tasks: map<TaskId, TaskRecord>, id: TaskId): nat {
    if id in tasks then tasks[id].attempts else 0
  }

  function Born(h: History, id: TaskId): real {
    if id in h.issued then h.issued[id].born else 0.0
  }

  /** a may stand before b. */
  predicate Before(tasks: map<TaskId, TaskRecord>, h: History, a: TaskId, b: TaskId) {
    && (Attempts(tasks, b) > 0 ==> Attempts(tasks, a) > 0)
    && (Attempts(tasks, a) == 0 && Attempts(tasks, b) == 0 ==> Born(h, a) < Born(h, b))
  }

  ghost predicate InOrder(q: seq<TaskId>, tasks: map<TaskId, TaskRecord>, h: History) {
    forall i, j :: 0 <= i < j < |q| ==> Before(tasks, h, q[i], q[j])
  }

  ghost predicate Shaped(m: QueueState, h: History) {
    forall n :: n in m.queues ==> InOrder(m.queues[n], m.tasks, h)
  }

  // ------------------------------------------------------------ memory

  /** A queue's order looks only at the attempts of its own tasks and at their creation times. */
  lemma OrderFrame(q: seq<TaskId>, tasks: map<TaskId, TaskRecord>, tasks': map<TaskId, TaskRecord>, h: History, h': History)
    requires InOrder(q, tasks, h)
    requires forall id :: id in q ==> Attempts(tasks', id) == Attempts(tasks, id) && Born(h', id) == Born(h, id)
    ensures InOrder(q, tasks', h')
  {
    forall i, j | 0 <= i < j < |q| ensures Before(tasks', h', q[i], q[j]) {
      assert Before(tasks, h, q[i], q[j]);
    }
  }

  lemma PushFrontOrder(q: seq<TaskId>, tasks: map<TaskId, TaskRecord>, h: History, id: TaskId)
    requires InOrder(q, tasks, h) && Attempts(tasks, id) > 0
    ensures InOrder([id] + q, tasks, h)
  {
    var r := [id] + q;
    forall i, j | 0 <= i < j < |r| ensures Before(tasks, h, r[i], r[j]) {
      if i > 0 {
        assert Before(tasks, h, q[i - 1], q[j - 1]);
      }
    }
  }

  lemma PushBackOrder(q: seq<TaskId>, tasks: map<TaskId, TaskRecord>, h: History, id: TaskId)
    requires InOrder(q, tasks, h) && forall x :: x in q ==> Before(tasks, h, x, id)
    ensures InOrder(q + [id], tasks, h)
  {
    var r := q + [id];
    forall i, j | 0 <= i < j < |r| ensures Before(tasks, h, r[i], r[j]) {
      if j < |q| {
        assert Before(tasks, h, q[i], q[j]);
      }
    }
  }

  lemma TailOrder(q: seq<TaskId>, tasks: map<TaskId, TaskRecord>, h: History)
    requires q != [] && InOrder(q, tasks, h)
    ensures InOrder(q[1..], tasks, h)
  {
    forall i, j | 0 <= i < j < |q| - 1 ensures Before(tasks, h, q[1..][i], q[1..][j]) {
      assert Before(tasks, h, q[i + 1], q[j + 1]);
    }
  }

  /** Queues that a transition leaves alone keep their order. */
  lemma ConsumeShaped(m: QueueState, h: History, n: QueueName, w: WorkerId)
    requires Placed(m) && Shaped(m, h)
    ensures Shaped(Dequeue(m, n, w).0, h)
  {
    var (m', got) := Dequeue(m, n, w);
    DequeueWrites(m, n, w);
    forall k | k in m'.queues ensures InOrder(m'.queues[k], m'.tasks, h) {
      var q := if k in m.queues then m.queues[k] else [];
      if got.Some? && k == m.tasks[got.value].queue {
        TailOrder(q, m.tasks, h);
        PoppedGone(m, k);
        assert m'.queues[k] == q[1..];
        OrderFrame(q[1..], m.tasks, m'.tasks, h, h);
      } else {
        assert m'.queues[k] == q;
        assert got.Some? ==> got.value !in q;
        OrderFrame(q, m.tasks, m'.tasks, h, h);
      }
    }
  }

  lemma PoppedGone(m: QueueState, n: QueueName)
    requires Placed(m) && n in m.queues && m.queues[n] != []
    ensures m.queues[n][0] !in m.queues[n][1..]
  {
    var q := m.queues[n];
    if q[0] in q[1..] {
      var j :| 0 <= j < |q| - 1 && q[1..][j] == q[0];
      NoRepeats(m, n, 0, j + 1);
    }
  }

  lemma PushFrontShaped(m: QueueState, h: History, id: TaskId)
    requires Valid(m) && id in m.tasks && m.tasks[id].attempts > 0 && Shaped(m, h)
    ensures Shaped(PushFront(m, m.tasks[id].queue, id), h)
  {
    var n := m.tasks[id].queue;
    var q := if n in m.queues then m.queues[n] else [];
    PushFrontOrder(q, m.tasks, h, id);
  }

  /** Rewriting a task without touching its attempts. */
  lemma WriteShaped(m: QueueState, h: History, t: TaskRecord)
    requires Valid(m) && t.id in m.tasks && t.attempts == m.tasks[t.id].attempts && Shaped(m, h)
    ensures Shaped(Write(m, t), h)
  {
    forall n | n in m.queues ensures InOrder(m.queues[n], Write(m, t).tasks, h) {
      OrderFrame(m.queues[n], m.tasks, Write(m, t).tasks, h, h);
    }
  }

  lemma RequeueShaped(m: QueueState, h: History, id: TaskId)
    requires Placed(m) && Shaped(m, h)
    ensures Shaped(RequeueById(m, id), h)
  {
    if id in m.inFlight {
      StatusIsPlace(m, id);
      WriteShaped(m, h, Returned(m.tasks[id]));
      PushFrontShaped(Write(m, Returned(m.tasks[id])), h, id);
    }
  }

  lemma {:induction false} TickShaped(m: QueueState, h: History, ids: seq<TaskId>)
    requires Placed(m) && Shaped(m, h)
    ensures Shaped(RequeueAll(m, ids), h)
    decreases |ids|
  {
    if ids != [] {
      RequeueShaped(m, h, ids[0]);
      RequeuePlaced(m, ids[0]);
      TickShaped(RequeueById(m, ids[0]), h, ids[1..]);
    }
  }

  lemma AckShaped(m: QueueState, h: History, id: TaskId)
    requires Placed(m) && Shaped(m, h)
    ensures Shaped(Acknowledge(m, id), h)
  {
    if id in m.inFlight {
      StatusIsPlace(m, id);
      WriteShaped(m, h, m.tasks[id].(status := Done));
    }
  }

  lemma NackShaped(m: QueueState, h: History, id: TaskId)
    requires Placed(m) && Shaped(m, h)
    ensures Shaped(Queues.Nack(m, id), h)
  {
    if id in m.inFlight {
      StatusIsPlace(m, id);
      WriteShaped(m, h, Failed(m, id));
      var w := Write(m, Failed(m, id));
      if Exhausted(m, id) {
        NackWrites(m, id);
        assert Queues.Nack(m, id).queues == w.queues;
      } else {
        PushFrontShaped(w, h, id);
        assert Queues.Nack(m, id).queues == PushFront(w, m.tasks[id].queue, id).queues;
      }
    }
  }

  /** A task may join the back of its queue if it may stand behind everything there. */
  lemma AddShaped(m: QueueState, h: History, h': History, t: TaskRecord)
    requires Valid(m) && Shaped(m, h) && t.id !in m.tasks
    requires forall id :: id in m.tasks ==> Born(h', id) == Born(h, id)
    requires forall id :: id in m.tasks && m.tasks[id].queue == t.queue ==> Before(Add(m, t).tasks, h', id, t.id)
    requires forall n, id :: n in m.queues && id in m.queues[n] ==> m.tasks[id].queue == n
    ensures Shaped(Add(m, t), h')
  {
    var m' := Add(m, t);
    forall k | k in m'.queues ensures InOrder(m'.queues[k], m'.tasks, h') {
      var q := if k in m.queues then m.queues[k] else [];
      assert forall id :: id in q ==> id in m.tasks;
      OrderFrame(q, m.tasks, m'.tasks, h, h');
      if k == t.queue {
        PushBackOrder(q, m'.tasks, h', t.id);
      }
    }
  }

  /** The front task of a queue is older than every other never-attempted task behind it. */
  lemma FrontIsOldest(m: QueueState, h: History, id: TaskId, y: TaskId)
    requires Placed(m) && Shaped(m, h) && id in m.tasks && Queued(m, id) && m.queues[m.tasks[id].queue][0] == id
    requires y in m.tasks && y != id && m.tasks[y].status == Pending && m.tasks[y].queue == m.tasks[id].queue
    requires m.tasks[id].attempts == 0 && m.tasks[y].attempts == 0
    ensures Born(h, id) < Born(h, y)
  {
    StatusIsPlace(m, y);
    var q := m.queues[m.tasks[id].queue];
    var j :| 0 <= j < |q| && q[j] == y;
    assert Before(m.tasks, h, q[0], q[j]);
  }

  lemma ShapedCounters(m: QueueState, h: History, h': History)
    requires Shaped(m, h) && h'.issued == h.issued
    ensures Shaped(m, h')
  {
    forall n | n in m.queues ensures InOrder(m.queues[n], m.tasks, h') {
      OrderFrame(m.queues[n], m.tasks, m.tasks, h, h');
    }
  }
}
