/**
 No stuck task: as long as only registered workers consume and no worker registers again while
 holding tasks, every in-flight task is tracked by the worker it was given to, so the
 eviction loop returns it to its queue once that worker falls silent.
 */
module Tracking {
  import opened Tasks
  import opened Queues
  import opened WalStore
  import opened Registry
  import opened Handlers
  import opened Runs
  import opened Placement
  import opened Agreement
  import opened Durability
  import opened Recovery
  import opened CrashSafety

  predicate TrackedOn(b: Broker, id: TaskId) {
    id in b.mgr.inFlight ==>
      && id in b.mgr.tasks && b.mgr.tasks[id].worker.Some?
      && var w := b.mgr.tasks[id].worker.value; w in b.reg.info && id in b.reg.info[w].tracked
  }

  ghost predicate Tracked(b: Broker) {
    forall id :: TrackedOn(b, id)
  }

  /** Some in-flight task was given to w. */
  ghost predicate Holding(b: Broker, w: WorkerId) {
    exists id :: id in b.mgr.inFlight && id in b.mgr.tasks && b.mgr.tasks[id].worker == Some(w)
  }

  /** The two ways a worker can escape tracking: consuming unregistered, and registering again while holding a task. */
  ghost predicate Careful(b: Broker, r: Request)
    requires Valid(b.mgr)
  {
    match r
    case Consume(n, w) => Delivery(b, n, w).Some? ==> w in b.reg.info
    case Join(w, _) => !Holding(b, w)
    case _ => true
  }

  lemma ConsumeTracked(b: Broker, n: QueueName, w: WorkerId)
    requires Placed(b.mgr) && Agree(b.mgr, b.store) && Tracked(b)
    ensures Tracked(DoConsume(b, n, w)) <==> Careful(b, Consume(n, w))
  {
    var b' := DoConsume(b, n, w);
    if Delivery(b, n, w).None? {
      DequeueWrites(b.mgr, n, w);
      forall id ensures TrackedOn(b', id) {
        assert TrackedOn(b, id);
      }
    } else {
      ConsumeDelta(b, n, w);
      var got := Delivery(b, n, w).value;
      if w in b.reg.info {
        forall id ensures TrackedOn(b', id) {
          assert TrackedOn(b, id);
        }
      } else {
        assert !TrackedOn(b', got);
      }
    }
  }

  lemma JoinTracked(b: Broker, w: WorkerId, now: real)
    requires Valid(b.mgr) && Tracked(b)
    ensures Tracked(b.(reg := Register(b.reg, w, now))) <==> Careful(b, Join(w, now))
  {
    var b' := b.(reg := Register(b.reg, w, now));
    if Holding(b, w) {
      var id :| id in b.mgr.inFlight && id in b.mgr.tasks && b.mgr.tasks[id].worker == Some(w);
      assert !TrackedOn(b', id);
    } else {
      forall id ensures TrackedOn(b', id) {
        assert TrackedOn(b, id);
      }
    }
  }

  /** ACK and NACK may come from any worker, even one that lost the task long ago. */
  lemma AnswerTracked(b: Broker, r: Request)
    requires Valid(b.mgr) && Tracked(b) && (r.Ack? || r.Nack?)
    ensures Tracked(Handle(b, r))
  {
    var b' := Handle(b, r);
    if r.Nack? && r.id in b.mgr.inFlight {
      NackWrites(b.mgr, r.id);
    }
    forall id ensures TrackedOn(b', id) {
      assert TrackedOn(b, id);
    }
  }

  lemma TickTracked(b: Broker, now: real, ids: seq<TaskId>)
    requires Valid(b.mgr) && Tracked(b) && Elems(ids) == Orphans(b.reg, now)
    ensures Tracked(DoTick(b, now, ids))
  {
    var b' := DoTick(b, now, ids);
    RequeueAllWrites(b.mgr, ids);
    forall id ensures TrackedOn(b', id) {
      assert TrackedOn(b, id);
    }
  }

  lemma IssueTracked(b: Broker, t: TaskRecord, store: Tables)
    requires Valid(b.mgr) && Tracked(b) && t.id !in b.mgr.tasks
    ensures Tracked(b.(mgr := Add(b.mgr, t), store := store))
  {
    var b' := b.(mgr := Add(b.mgr, t), store := store);
    forall id ensures TrackedOn(b', id) {
      assert TrackedOn(b, id);
    }
  }

  lemma BeatTracked(b: Broker, w: WorkerId, now: real)
    requires Tracked(b)
    ensures Tracked(b.(reg := Heartbeat(b.reg, w, now)))
  {
    forall id ensures TrackedOn(b.(reg := Heartbeat(b.reg, w, now)), id) {
      assert TrackedOn(b, id);
    }
  }

  lemma PurgeTracked(b: Broker, store: Tables)
    requires Tracked(b)
    ensures Tracked(b.(store := store))
  {
    forall id ensures TrackedOn(b.(store := store), id) {
      assert TrackedOn(b, id);
    }
  }

  /** A request keeps every in-flight task tracked if and only if it is careful. */
  lemma CarefulExactly(s: System, r: Request)
    requires Inv(s) && s.up && Allowed(s, r) && Tracked(s.b)
    ensures Tracked(Handle(s.b, r)) <==> Careful(s.b, r)
  {
    match r
    case Produce(n, p, id, now) =>
      if n != "" {
        IssueTracked(s.b, NewTask(id, n, p, now, 0), SaveTask(s.b.store, NewTask(id, n, p, now, 0)));
      }
    case Consume(n, w) => ConsumeTracked(s.b, n, w);
    case Ack(_, _) => AnswerTracked(s.b, r);
    case Nack(_, _) => AnswerTracked(s.b, r);
    case Join(w, now) => JoinTracked(s.b, w, now);
    case Beat(w, now) => BeatTracked(s.b, w, now);
    case Tick(now, ids) => TickTracked(s.b, now, ids);
    case Replay(id, newId, now) =>
      if id in s.b.store.dlq {
        IssueTracked(s.b, NewTask(newId, s.b.store.dlq[id].queue, s.b.store.dlq[id].payload, now, 0),
                     Handle(s.b, r).store);
      }
    case PurgeDlq(q) => PurgeTracked(s.b, WalStore.PurgeDlq(s.b.store, q));
  }

  /** Every request of the run is careful when it is served. */
  ghost predicate CarefulRun(s: System, es: seq<Event>)
    requires Wf(s) && Legal(s, es)
    decreases |es|
  {
    es == [] || ((es[0].Do? ==> Careful(s.b, es[0].req)) && CarefulRun(Step(s, es[0]), es[1..]))
  }

  lemma NoneInFlight(b: Broker)
    requires b.mgr.inFlight == {}
    ensures Tracked(b)
  {
    forall id ensures TrackedOn(b, id) {
    }
  }

  lemma StepTracked(s: System, e: Event)
    requires Inv(s) && Enabled(s, e) && Tracked(s.b) && (e.Do? ==> Careful(s.b, e.req))
    ensures Tracked(Step(s, e).b)
  {
    match e
    case Do(r) => CarefulExactly(s, r);
    case Crash(r, k) => NoneInFlight(Step(s, e).b);
    case Recover(rows, done, now) =>
      if done == |rows| {
        RebuildKeeps(Empty(s.b.mgr.maxRetries), rows, now, 0);
      }
      NoneInFlight(Step(s, e).b);
  }

  lemma {:induction false} RunTracked(s: System, es: seq<Event>)
    requires Inv(s) && Legal(s, es) && Tracked(s.b) && CarefulRun(s, es)
    ensures Tracked(Run(s, es).b) && Inv(Run(s, es))
    decreases |es|
  {
    if es != [] {
      StepTracked(s, es[0]);
      StepKeeps(s, es[0]);
      RunTracked(Step(s, es[0]), es[1..]);
    }
  }

  /** Right after an eviction pass at time `now`, every in-flight task belongs to a registered worker
      heard from within the last 6 seconds. */
  lemma NoStuckTask(maxRetries: int, es: seq<Event>, now: real, ids: seq<TaskId>, id: TaskId)
    requires Legal(Initial(maxRetries), es) && CarefulRun(Initial(maxRetries), es)
    requires Enabled(Run(Initial(maxRetries), es), Do(Tick(now, ids)))
    requires id in Step(Run(Initial(maxRetries), es), Do(Tick(now, ids))).b.mgr.inFlight
    ensures var b := Step(Run(Initial(maxRetries), es), Do(Tick(now, ids))).b;
      && id in b.mgr.tasks && b.mgr.tasks[id].worker.Some?
      && var w := b.mgr.tasks[id].worker.value;
         w in b.reg.info && b.reg.info[w].lastHeartbeat >= now - HEARTBEAT_TIMEOUT && id in b.reg.info[w].tracked
  {
    InitialInv(maxRetries);
    NoneInFlight(Initial(maxRetries).b);
    RunTracked(Initial(maxRetries), es);
    TickedIsHeard(Run(Initial(maxRetries), es).b, now, ids, id);
  }

  lemma TickedIsHeard(b: Broker, now: real, ids: seq<TaskId>, id: TaskId)
    requires Valid(b.mgr) && Tracked(b) && Elems(ids) == Orphans(b.reg, now) && id in DoTick(b, now, ids).mgr.inFlight
    ensures var b' := DoTick(b, now, ids);
      && id in b'.mgr.tasks && b'.mgr.tasks[id].worker.Some?
      && var w := b'.mgr.tasks[id].worker.value;
         w in b'.reg.info && b'.reg.info[w].lastHeartbeat >= now - HEARTBEAT_TIMEOUT && id in b'.reg.info[w].tracked
  {
    TickTracked(b, now, ids);
    assert TrackedOn(DoTick(b, now, ids), id);
  }

  // ------------------------------------------------------------------ going adrift

  /** The task is in flight and no registered worker is tracking it. */
  ghost predicate Adrift(b: Broker, id: TaskId) {
    id in b.mgr.inFlight && forall w :: w in b.reg.info ==> id !in b.reg.info[w].tracked
  }

  /** The event neither answers the task nor restarts the broker. */
  predicate Ignores(e: Event, id: TaskId) {
    e.Do? && (e.req.Ack? || e.req.Nack? ==> e.req.id != id)
  }

  lemma ConsumeAdrift(b: Broker, n: QueueName, w: WorkerId, id: TaskId)
    requires Placed(b.mgr) && Agree(b.mgr, b.store) && Adrift(b, id)
    ensures Adrift(DoConsume(b, n, w), id)
  {
    if Delivery(b, n, w).Some? {
      ConsumeDelta(b, n, w);
      StatusIsPlace(b.mgr, id);
    } else {
      DequeueWrites(b.mgr, n, w);
    }
  }

  lemma AnswerAdrift(b: Broker, r: Request, id: TaskId)
    requires Valid(b.mgr) && Adrift(b, id) && (r.Ack? || r.Nack?) && r.id != id
    ensures Adrift(Handle(b, r), id)
  {
    if r.Nack? && r.id in b.mgr.inFlight {
      NackWrites(b.mgr, r.id);
    }
  }

  lemma TickAdrift(b: Broker, now: real, ids: seq<TaskId>, id: TaskId)
    requires Valid(b.mgr) && Adrift(b, id) && Elems(ids) == Orphans(b.reg, now)
    ensures Adrift(DoTick(b, now, ids), id)
  {
    RequeueAllWrites(b.mgr, ids);
    assert id !in Elems(ids);
  }

  lemma HandleAdrift(s: System, r: Request, id: TaskId)
    requires Inv(s) && s.up && Allowed(s, r) && Adrift(s.b, id) && Ignores(Do(r), id)
    ensures Adrift(Handle(s.b, r), id)
  {
    match r
    case Consume(n, w) => ConsumeAdrift(s.b, n, w, id);
    case Ack(_, _) => AnswerAdrift(s.b, r, id);
    case Nack(_, _) => AnswerAdrift(s.b, r, id);
    case Tick(now, ids) => TickAdrift(s.b, now, ids, id);
    case _ =>
  }

  /**
   A task adrift stays in flight through every eviction pass and everything else the broker does, until somebody
   answers it or the broker restarts.
   */
  lemma {:induction false} AdriftStays(s: System, es: seq<Event>, id: TaskId)
    requires Inv(s) && Legal(s, es) && Adrift(s.b, id) && forall i :: 0 <= i < |es| ==> Ignores(es[i], id)
    ensures Adrift(Run(s, es).b, id)
    decreases |es|
  {
    if es != [] {
      assert Ignores(es[0], id);
      HandleAdrift(s, es[0].req, id);
      StepKeeps(s, es[0]);
      AdriftStays(Step(s, es[0]), es[1..], id);
    }
  }
}
