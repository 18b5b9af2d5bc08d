/**
 The counters of the queue manager, the dead letter queue and the worker registry balance against each
 other and against the queues, after every command of every broker life.
 */
module Ledger {
  import opened Tasks
  import opened Queues
  import opened WalStore
  import opened Registry
  import opened Handlers
  import opened Runs
  import opened Placement
  import opened Durability
  import opened Recovery
  import opened CrashSafety
  import C = Conservation

  /** Every task enqueued in this life of the broker is somewhere, and every delivery ended somehow or is under way. */
  ghost predicate Balanced(b: Broker)
    requires Valid(b.mgr)
  {
    var c := b.mgr.count;
    && c.enqueued == C.Pending(b.mgr) + |b.mgr.inFlight| + |b.mgr.completed| + |b.mgr.dlq|
    && c.dequeued == c.acked + c.nacked + |b.mgr.inFlight| + b.reg.reassigned
    && c.received == |b.mgr.dlq| + c.retried
    && c.deadLettered == c.received
    && c.purged == 0
  }

  // The broker as a state of the lock-level machine in which no coroutine holds a task.
  function Books(m: QueueState, reassigned: nat): L.System {
    L.System(m, [], {}, 0, reassigned)
  }

  lemma BooksBalance(b: Broker)
    requires Valid(b.mgr)
    ensures C.Balanced(Books(b.mgr, b.reg.reassigned)) <==> Balanced(b)
  {
    assert C.Goals([]) == [];
  }

  lemma BooksInv(m: QueueState, reassigned: nat)
    requires Placed(m)
    ensures L.Inv(Books(m, reassigned))
  {
    forall id | id in m.tasks ensures L.Good(Books(m, reassigned), id) {
      L.SameGood(Quiet(m), Books(m, reassigned), id);
    }
  }

  // ------------------------------------------------------------------------ steps

  lemma AddBalanced(b: Broker, t: TaskRecord, store: Tables)
    requires Valid(b.mgr) && Balanced(b)
    ensures Balanced(Broker(Add(b.mgr, t), b.reg, store))
  {
    C.PushPending(Write(b.mgr, t), t.queue, t.id);
  }

  /** A command that is one critical section. */
  lemma SectionBalanced(b: Broker, e: L.Event, b': Broker)
    requires Placed(b.mgr) && Balanced(b) && L.Enabled(Books(b.mgr, b.reg.reassigned), e)
    requires Valid(b'.mgr) && Books(b'.mgr, b'.reg.reassigned) == L.Step(Books(b.mgr, b.reg.reassigned), e)
    ensures Balanced(b')
  {
    BooksInv(b.mgr, b.reg.reassigned);
    BooksBalance(b);
    C.StepBalanced(Books(b.mgr, b.reg.reassigned), e);
    BooksBalance(b');
  }

  lemma ConsumeBalanced(b: Broker, n: QueueName, w: WorkerId)
    requires Placed(b.mgr) && Balanced(b)
    ensures Balanced(DoConsume(b, n, w))
  {
    if n != "" {
      SectionBalanced(b, L.Consume(n, w), DoConsume(b, n, w));
    }
  }

  lemma AckBalanced(b: Broker, id: TaskId, w: WorkerId)
    requires Placed(b.mgr) && Balanced(b)
    ensures Balanced(DoAck(b, id, w))
  {
    if id in b.mgr.inFlight {
      SectionBalanced(b, L.Ack(id), DoAck(b, id, w));
    }
  }

  lemma NackBooks(m: QueueState, reassigned: nat, id: TaskId)
    requires Placed(m) && id in m.inFlight && C.Balanced(Books(m, reassigned))
    ensures C.Balanced(Books(Queues.Nack(m, id), reassigned))
  {
    var s := Books(m, reassigned);
    BooksInv(m, reassigned);
    C.StepBalanced(s, L.NackFirst(id));
    L.StepKeepsInv(s, L.NackFirst(id));
    NackTwoSections(m, reassigned, id);
    C.StepBalanced(L.Step(s, L.NackFirst(id)), L.Second(0));
  }

  lemma NackTwoSections(m: QueueState, reassigned: nat, id: TaskId)
    requires Valid(m) && id in m.inFlight
    ensures var s1 := L.Step(Books(m, reassigned), L.NackFirst(id));
      L.Enabled(s1, L.Second(0)) && L.Step(s1, L.Second(0)) == Books(Queues.Nack(m, id), reassigned)
  {
    var s1 := L.Step(Books(m, reassigned), L.NackFirst(id));
    assert s1.held == [NackTake(m, id).1.value];
    assert RemoveAt(s1.held, 0) == [];
  }

  lemma NackBalanced(b: Broker, id: TaskId, w: WorkerId)
    requires Placed(b.mgr) && Balanced(b)
    ensures Balanced(DoNack(b, id, w))
  {
    if id in b.mgr.inFlight {
      BooksBalance(b);
      NackBooks(b.mgr, b.reg.reassigned, id);
      BooksBalance(DoNack(b, id, w));
    }
  }

  lemma OneReturned(ids: seq<TaskId>, inFlight: set<TaskId>)
    requires ids != []
    ensures |Elems(ids) * inFlight| == Bit(ids[0] in inFlight) + |Elems(ids[1..]) * (inFlight - {ids[0]})|
  {
    var rest := Elems(ids[1..]) * (inFlight - {ids[0]});
    assert Elems(ids) == Elems(ids[1..]) + {ids[0]};
    if ids[0] in inFlight {
      assert Elems(ids) * inFlight == rest + {ids[0]};
    } else {
      assert Elems(ids) * inFlight == rest;
    }
  }

  lemma RequeueBooks(m: QueueState, reassigned: nat, id: TaskId)
    requires Valid(m) && C.Balanced(Books(m, reassigned))
    ensures C.Balanced(Books(RequeueById(m, id), reassigned + Bit(id in m.inFlight)))
  {
    C.RequeueBalanced(Books(m, reassigned), id);
    assert L.Step(Books(m, reassigned), L.RequeueOne(id)) == Books(RequeueById(m, id), reassigned + Bit(id in m.inFlight));
  }

  /** The registry counts exactly the requeues that succeed, whatever order it goes through the tasks in. */
  lemma {:induction false} TickBooks(m: QueueState, reassigned: nat, ids: seq<TaskId>)
    requires Placed(m) && C.Balanced(Books(m, reassigned))
    ensures C.Balanced(Books(RequeueAll(m, ids), reassigned + |Elems(ids) * m.inFlight|))
    decreases |ids|
  {
    if ids == [] {
      assert Elems(ids) * m.inFlight == {};
    } else {
      var m1, re1 := RequeueById(m, ids[0]), reassigned + Bit(ids[0] in m.inFlight);
      RequeueBooks(m, reassigned, ids[0]);
      RequeuePlaced(m, ids[0]);
      RequeueWrites(m, ids[0]);
      OneReturned(ids, m.inFlight);
      TickBooks(m1, re1, ids[1..]);
    }
  }

  lemma TickBalanced(b: Broker, now: real, ids: seq<TaskId>)
    requires Placed(b.mgr) && Balanced(b)
    ensures Balanced(DoTick(b, now, ids))
  {
    BooksBalance(b);
    TickBooks(b.mgr, b.reg.reassigned, ids);
    BooksBalance(DoTick(b, now, ids));
  }

  lemma HandleBalanced(b: Broker, r: Request)
    requires Placed(b.mgr) && Balanced(b)
    ensures Balanced(Handle(b, r))
  {
    match r
    case Produce(n, p, id, now) =>
      AddBalanced(b, NewTask(id, n, p, now, 0), Handle(b, r).store);
    case Consume(n, w) => ConsumeBalanced(b, n, w);
    case Ack(id, w) => AckBalanced(b, id, w);
    case Nack(id, w) => NackBalanced(b, id, w);
    case Tick(now, ids) => TickBalanced(b, now, ids);
    case Replay(id, newId, now) =>
      if id in b.store.dlq {
        AddBalanced(b, NewTask(newId, b.store.dlq[id].queue, b.store.dlq[id].payload, now, 0), Handle(b, r).store);
      }
    case Join(_, _) =>
    case Beat(_, _) =>
    case PurgeDlq(_) =>
  }

  lemma EmptyBalanced(maxRetries: int, store: Tables)
    ensures Balanced(Broker(Empty(maxRetries), NoWorkers, store))
  {
  }

  lemma {:induction false} RebuildBalanced(m: QueueState, rows: seq<Row>, now: real, store: Tables)
    requires Valid(m) && Balanced(Broker(m, NoWorkers, store))
    ensures Balanced(Broker(Rebuild(m, rows, now), NoWorkers, store))
    decreases |rows|
  {
    if rows != [] {
      AddBalanced(Broker(m, NoWorkers, store), Recovered(rows[0], now), store);
      RebuildBalanced(Add(m, Recovered(rows[0], now)), rows[1..], now, store);
    }
  }

  lemma StepBalanced(s: System, e: Event)
    requires Inv(s) && Enabled(s, e) && Balanced(s.b)
    ensures Balanced(Step(s, e).b)
  {
    match e
    case Do(r) => HandleBalanced(s.b, r);
    case Crash(_, _) => EmptyBalanced(s.b.mgr.maxRetries, Step(s, e).b.store);
    case Recover(rows, done, now) =>
      EmptyBalanced(s.b.mgr.maxRetries, Step(s, e).b.store);
      if done == |rows| {
        RebuildBalanced(Empty(s.b.mgr.maxRetries), rows, now, Step(s, e).b.store);
      }
  }

  lemma {:induction false} RunBalanced(s: System, es: seq<Event>)
    requires Inv(s) && Legal(s, es) && Balanced(s.b)
    ensures Balanced(Run(s, es).b)
    decreases |es|
  {
    if es != [] {
      StepBalanced(s, es[0]);
      StepKeeps(s, es[0]);
      RunBalanced(Step(s, es[0]), es[1..]);
    }
  }

  /** Over every run, restarts included, the counters kept since the last start balance across the components. */
  lemma ComponentsBalance(maxRetries: int, es: seq<Event>)
    requires Legal(Initial(maxRetries), es)
    ensures Balanced(Run(Initial(maxRetries), es).b)
  {
    InitialInv(maxRetries);
    EmptyBalanced(maxRetries, Initial(maxRetries).b.store);
    RunBalanced(Initial(maxRetries), es);
  }
}
