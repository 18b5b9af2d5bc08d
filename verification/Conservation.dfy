/**
 The statistics counters balance, at every point of every interleaving of critical sections.
 */
module Conservation {
  import opened Tasks
  import opened Queues
  import opened Lifecycle

  /** Total length of the listed queues. */
  function Total(names: seq<QueueName>, queues: map<QueueName, seq<TaskId>>): nat
    requires forall n :: n in names ==> n in queues
  {
    if names == [] then 0 else |queues[names[0]]| + Total(names[1..], queues)
  }

  function Goals(held: seq<Held>): (gs: seq<Goal>)
    ensures |gs| == |held| && forall k :: 0 <= k < |held| ==> gs[k] == held[k].goal
  {
    seq(|held|, k requires 0 <= k < |held| => held[k].goal)
  }

  ghost predicate Balanced(s: System)
    requires Wf(s)
  {
    var c := s.q.count;
    && c.enqueued == Total(s.q.names, s.q.queues) + |s.q.inFlight| + |s.q.completed| + |s.q.dlq| + |s.held| + |s.discarded|
    && c.dequeued == c.acked + c.nacked + |s.q.inFlight| + s.reassigned
    && c.received == |s.q.dlq| + c.retried + s.removed + c.purged + multiset(Goals(s.held))[ToBack]
    && c.deadLettered == c.received + multiset(Goals(s.held))[ToDlq]
    && |s.discarded| == s.removed + c.purged
  }

  lemma {:induction false} TotalUpdate(names: seq<QueueName>, queues: map<QueueName, seq<TaskId>>, n: QueueName, q: seq<TaskId>)
    requires NoDup(names) && forall m :: m in names ==> m in queues
    ensures Total(names, queues[n := q]) == Total(names, queues) + if n in names then |q| - |queues[n]| else 0
  {
    if names != [] {
      TotalUpdate(names[1..], queues, n, q);
      assert names[0] !in names[1..];
    }
  }

  lemma {:induction false} TotalAppend(names: seq<QueueName>, queues: map<QueueName, seq<TaskId>>, n: QueueName)
    requires n in queues && forall m :: m in names ==> m in queues
    ensures Total(names + [n], queues) == Total(names, queues) + |queues[n]|
  {
    if names == [] {
      assert names + [n] == [n];
    } else {
      assert (names + [n])[1..] == names[1..] + [n];
      TotalAppend(names[1..], queues, n);
    }
  }

  function Pending(q: QueueState): nat
    requires Valid(q)
  {
    Total(q.names, q.queues)
  }

  lemma EnsurePending(q: QueueState, n: QueueName)
    requires Valid(q)
    ensures Pending(EnsureQueue(q, n)) == Pending(q)
  {
    if n !in q.queues {
      TotalUpdate(q.names, q.queues, n, []);
      TotalAppend(q.names, q.queues[n := []], n);
    }
  }

  lemma PushPending(q: QueueState, n: QueueName, id: TaskId)
    requires Valid(q) && id in q.tasks
    ensures Pending(PushBack(q, n, id)) == Pending(q) + 1
    ensures Pending(PushFront(q, n, id)) == Pending(q) + 1
  {
    EnsurePending(q, n);
    var e := EnsureQueue(q, n);
    TotalUpdate(e.names, e.queues, n, e.queues[n] + [id]);
    TotalUpdate(e.names, e.queues, n, [id] + e.queues[n]);
  }

  lemma DequeuePending(q: QueueState, n: QueueName, w: WorkerId)
    requires Valid(q)
    ensures Pending(Dequeue(q, n, w).0) + (if Dequeue(q, n, w).1.Some? then 1 else 0) == Pending(q)
  {
    EnsurePending(q, n);
    var e := if n == WILDCARD then q else EnsureQueue(q, n);
    var src := Source(q, n);
    if src.Some? {
      TotalUpdate(e.names, e.queues, src.value, e.queues[src.value][1..]);
    }
  }

  lemma GoalsAppend(held: seq<Held>, h: Held)
    ensures Goals(held + [h]) == Goals(held) + [h.goal]
  {
  }

  lemma GoalsRemove(held: seq<Held>, k: nat)
    requires k < |held|
    ensures Goals(RemoveAt(held, k)) == RemoveAt(Goals(held), k)
  {
  }

  lemma {:induction false} SetOfDistinct<T>(s: seq<T>)
    requires NoDup(s)
    ensures |Elems(s)| == |s|
  {
    if s != [] {
      SetOfDistinct(s[1..]);
      assert Elems(s) == Elems(s[1..]) + {s[0]};
    }
  }

  lemma DlqDistinct(s: System)
    requires Inv(s)
    ensures NoDup(s.q.dlq) && Elems(s.q.dlq) !! s.discarded
  {
    forall i, j | 0 <= i < j < |s.q.dlq| ensures s.q.dlq[i] != s.q.dlq[j] {
      if s.q.dlq[i] == s.q.dlq[j] {
        assert Good(s, s.q.dlq[i]);
        AtMostOnce(s.q.dlq, i, j);
        assert false;
      }
    }
    forall id | id in s.q.dlq ensures id !in s.discarded {
      assert Good(s, id);
    }
  }

  lemma EnqueueBalanced(s: System, n: QueueName, p: Payload, id: TaskId, now: real)
    requires Wf(s) && Balanced(s) && id !in s.q.tasks
    ensures Balanced(Step(s, Enqueue(n, p, id, now)))
  {
    PushPending(Write(s.q, NewTask(id, n, p, now, 0)), n, id);
  }

  lemma ConsumeBalanced(s: System, n: QueueName, w: WorkerId)
    requires Wf(s) && Balanced(s)
    requires var id := Dequeue(s.q, n, w).1; id.Some? ==> id.value !in s.q.inFlight
    ensures Balanced(Step(s, Consume(n, w)))
  {
    DequeuePending(s.q, n, w);
  }

  lemma AckBalanced(s: System, id: TaskId)
    requires Wf(s) && Balanced(s) && (id in s.q.inFlight ==> id !in s.q.completed)
    ensures Balanced(Step(s, Ack(id)))
  {
  }

  lemma RequeuePending(q: QueueState, id: TaskId)
    requires Valid(q) && id in q.inFlight
    ensures Pending(RequeueById(q, id)) == Pending(q) + 1
  {
    var w := Write(q, q.tasks[id].(status := Status.Pending, worker := None));
    PushPending(w, q.tasks[id].queue, id);
  }

  lemma RequeueBalanced(s: System, id: TaskId)
    requires Wf(s) && Balanced(s)
    ensures Balanced(Step(s, RequeueOne(id)))
  {
    if id in s.q.inFlight {
      RequeuePending(s.q, id);
    }
  }

  lemma DequeuedWasPending(s: System, n: QueueName, w: WorkerId)
    requires Inv(s)
    ensures var id := Dequeue(s.q, n, w).1; id.Some? ==> id.value !in s.q.inFlight
  {
    var src := Source(s.q, n);
    if src.Some? {
      var id := s.q.queues[src.value][0];
      assert id in s.q.queues[src.value];
      assert Good(s, id);
    }
  }

  lemma NackBalanced(s: System, id: TaskId)
    requires Wf(s) && Balanced(s)
    ensures Balanced(Step(s, NackFirst(id)))
  {
    if id in s.q.inFlight {
      GoalsAppend(s.held, NackTake(s.q, id).1.value);
    }
  }

  lemma RetryBalanced(s: System, id: TaskId)
    requires Wf(s) && Balanced(s)
    ensures Balanced(Step(s, RetryFirst(id)))
  {
    GoalsAppend(s.held, Held(id, ToBack));
  }

  lemma ReleasePending(q: QueueState, h: Held)
    requires Valid(q) && h.id in q.tasks
    ensures Pending(Release(q, h)) == Pending(q) + if h.goal == ToDlq then 0 else 1
  {
    var t := q.tasks[h.id];
    match h.goal
    case ToDlq =>
    case ToFront =>
      PushPending(q, t.queue, h.id);
    case ToBack =>
      PushPending(Write(q, t.(status := Status.Pending, worker := None)), t.queue, h.id);
  }

  lemma ReleaseCounts(q: QueueState, h: Held)
    requires Valid(q) && h.id in q.tasks && h.id !in q.dlq
    ensures var r := Release(q, h);
      && Pending(r) == Pending(q) + (if h.goal == ToDlq then 0 else 1)
      && r.inFlight == q.inFlight && r.completed == q.completed
      && |r.dlq| == |q.dlq| + (if h.goal == ToDlq then 1 else 0)
      && r.count == q.count.(received := q.count.received + (if h.goal == ToDlq then 1 else 0),
                             retried := q.count.retried + (if h.goal == ToBack then 1 else 0))
  {
    ReleasePending(q, h);
  }

  lemma SecondBalanced(s: System, k: nat)
    requires Wf(s) && Balanced(s) && k < |s.held| && s.held[k].id !in s.q.dlq
    ensures Balanced(s.(q := Release(s.q, s.held[k]), held := RemoveAt(s.held, k)))
  {
    GoalsRemove(s.held, k);
    RemoveAtCount(Goals(s.held), k);
    ReleaseCounts(s.q, s.held[k]);
  }

  lemma RemoveBalanced(s: System, id: TaskId)
    requires Wf(s) && Balanced(s) && (id in s.q.dlq ==> id !in s.discarded)
    ensures Balanced(Step(s, RemoveDead(id)))
  {
  }

  lemma PurgeBalanced(s: System)
    requires Wf(s) && Balanced(s) && |Elems(s.q.dlq)| == |s.q.dlq| && Elems(s.q.dlq) !! s.discarded
    ensures Balanced(Step(s, PurgeDead))
  {
  }

  lemma StepBalanced(s: System, e: Event)
    requires Inv(s) && Balanced(s) && Enabled(s, e)
    ensures Balanced(Step(s, e))
  {
    match e
    case Enqueue(n, p, id, now) => EnqueueBalanced(s, n, p, id, now);
    case Consume(n, w) =>
      DequeuedWasPending(s, n, w);
      ConsumeBalanced(s, n, w);
    case Ack(id) =>
      assert id in s.q.inFlight ==> Good(s, id);
      AckBalanced(s, id);
    case RequeueOne(id) => RequeueBalanced(s, id);
    case NackFirst(id) => NackBalanced(s, id);
    case RetryFirst(id) => RetryBalanced(s, id);
    case Second(k) =>
      assert Good(s, s.held[k].id);
      HeldOnly(s, k);
      SecondBalanced(s, k);
    case RemoveDead(id) =>
      assert id in s.q.dlq ==> Good(s, id);
      RemoveBalanced(s, id);
    case PurgeDead =>
      DlqDistinct(s);
      SetOfDistinct(s.q.dlq);
      PurgeBalanced(s);
  }

  lemma {:induction false} RunBalanced(s: System, es: seq<Event>)
    requires Inv(s) && Balanced(s) && Legal(s, es)
    ensures Balanced(Run(s, es))
    decreases |es|
  {
    if es != [] {
      StepBalanced(s, es[0]);
      StepKeepsInv(s, es[0]);
      RunBalanced(Step(s, es[0]), es[1..]);
    }
  }

  /** From an empty broker, the counters balance after every interleaving. */
  lemma CountersBalance(maxRetries: int, es: seq<Event>)
    requires Legal(Initial(maxRetries), es)
    ensures Balanced(Run(Initial(maxRetries), es))
  {
    RunBalanced(Initial(maxRetries), es);
  }
}
