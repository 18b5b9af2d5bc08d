/**
 What the registry's tracking is for: an eviction pass takes a task only from a worker that has it. The
 partner of `Tracking`, which shows that no in-flight task is forgotten.
 */
module Custody {
  import opened Tasks
  import opened Queues
  import opened WalStore
  import opened Registry
  import opened Handlers
  import opened Runs
  import opened Placement
  import opened Agreement
  import opened Durability
  import opened Recovery
  import opened CrashSafety
  import T = Tracking

  // ---------------------------------------------------------- one registry command

  predicate Tracks(r: Workers, w: WorkerId, id: TaskId) {
    w in r.info && id in r.info[w].tracked
  }

  function Heard(r: Workers, w: WorkerId): Option<real> {
    if w in r.info then Some(r.info[w].lastHeartbeat) else None
  }

  /** Completing a task unties it from the worker that answered, and touches nothing else. */
  lemma CompleteUnties(r: Workers, w: WorkerId, id: TaskId, v: WorkerId, x: TaskId)
    ensures Tracks(Complete(r, w, id), v, x) <==> Tracks(r, v, x) && !(v == w && x == id)
    ensures Heard(Complete(r, w, id), v) == Heard(r, v)
  {
  }

  /** Assigning a task ties it to a registered worker, and touches nothing else. */
  lemma AssignTies(r: Workers, w: WorkerId, id: TaskId, v: WorkerId, x: TaskId)
    ensures Tracks(Registry.Assign(r, w, id), v, x) <==> Tracks(r, v, x) || (v == w && x == id && w in r.info)
    ensures Heard(Registry.Assign(r, w, id), v) == Heard(r, v)
  {
  }

  /** A heartbeat moves the clock of a registered worker; an unknown one does not get in by it. */
  lemma HeartbeatMoves(r: Workers, w: WorkerId, now: real, v: WorkerId, x: TaskId)
    ensures Tracks(Heartbeat(r, w, now), v, x) <==> Tracks(r, v, x)
    ensures Heard(Heartbeat(r, w, now), v) == if v == w && w in r.info then Some(now) else Heard(r, v)
  {
  }

  /** Registering gets a worker in, now, with nothing to its name. */
  lemma RegisterStartsEmpty(r: Workers, w: WorkerId, now: real, v: WorkerId, x: TaskId)
    ensures Tracks(Register(r, w, now), v, x) <==> v != w && Tracks(r, v, x)
    ensures Heard(Register(r, w, now), v) == if v == w then Some(now) else Heard(r, v)
  {
  }

  /** A pass drops the workers not heard from for more than 6 seconds, with all they tracked, and counts them. */
  lemma PassDrops(r: Workers, now: real, requeued: nat, v: WorkerId, x: TaskId)
    ensures Tracks(Evict(r, now, requeued), v, x) <==> Tracks(r, v, x) && now - r.info[v].lastHeartbeat <= 6.0
    ensures v in Evict(r, now, requeued).info <==> v in r.info && now - r.info[v].lastHeartbeat <= 6.0
    ensures Evict(r, now, requeued).evictions - r.evictions == |r.info| - |Evict(r, now, requeued).info|
  {
    var dead := Registry.Dead(r, now);
    assert dead <= r.info.Keys;
    assert (r.info - dead).Keys == r.info.Keys - dead;
    assert |r.info.Keys - dead| == |r.info.Keys| - |dead|;
  }

  // --------------------------------------------------------------- what is tracked

  /** Whoever tracks a task has it: it is in flight and was handed to that worker. */
  predicate OwnedOn(b: Broker, w: WorkerId, id: TaskId) {
    Tracks(b.reg, w, id) ==> id in b.mgr.inFlight && id in b.mgr.tasks && b.mgr.tasks[id].worker == Some(w)
  }

  ghost predicate Owned(b: Broker) {
    forall w, id :: OwnedOn(b, w, id)
  }

  /** An answer leaves no other worker tracking the task. */
  ghost predicate Clean(b: Broker, r: Request) {
    (r.Ack? || r.Nack?) && r.id in b.mgr.inFlight ==> forall w :: w != r.worker ==> !Tracks(b.reg, w, r.id)
  }

  /** The answer comes from the worker the task was handed to. */
  predicate ByHolder(b: Broker, r: Request) {
    (r.Ack? || r.Nack?) && r.id in b.mgr.inFlight ==> r.id in b.mgr.tasks && b.mgr.tasks[r.id].worker == Some(r.worker)
  }

  lemma HolderIsClean(b: Broker, r: Request)
    requires Owned(b) && ByHolder(b, r)
    ensures Clean(b, r)
  {
    if (r.Ack? || r.Nack?) && r.id in b.mgr.inFlight {
      forall w | w != r.worker ensures !Tracks(b.reg, w, r.id) {
        assert OwnedOn(b, w, r.id);
      }
    }
  }

  lemma ConsumeOwnedOn(b: Broker, n: QueueName, w: WorkerId, v: WorkerId, x: TaskId)
    requires Placed(b.mgr) && Agree(b.mgr, b.store) && OwnedOn(b, v, x)
    ensures OwnedOn(DoConsume(b, n, w), v, x)
  {
    if Delivery(b, n, w).Some? {
      var id := Delivery(b, n, w).value;
      ConsumeDelta(b, n, w);
      StatusIsPlace(b.mgr, id);
      AssignTies(b.reg, w, id, v, x);
    } else {
      DequeueWrites(b.mgr, n, w);
    }
  }

  lemma AnswerDelta(b: Broker, r: Request)
    requires Valid(b.mgr) && (r.Ack? || r.Nack?) && r.id in b.mgr.inFlight
    ensures var b' := Handle(b, r);
      && b'.mgr.inFlight == b.mgr.inFlight - {r.id} && b'.reg == Complete(b.reg, r.worker, r.id)
      && forall x :: x in b.mgr.tasks && x != r.id ==> x in b'.mgr.tasks && b'.mgr.tasks[x] == b.mgr.tasks[x]
  {
    if r.Nack? {
      NackWrites(b.mgr, r.id);
    }
  }

  lemma AnswerOwned(b: Broker, r: Request)
    requires Valid(b.mgr) && Owned(b) && (r.Ack? || r.Nack?)
    ensures Owned(Handle(b, r)) <==> Clean(b, r)
  {
    var b' := Handle(b, r);
    if r.id in b.mgr.inFlight {
      AnswerDelta(b, r);
      if Clean(b, r) {
        forall v, x ensures OwnedOn(b', v, x) {
          assert OwnedOn(b, v, x);
          CompleteUnties(b.reg, r.worker, r.id, v, x);
        }
      } else {
        var v :| v != r.worker && Tracks(b.reg, v, r.id);
        CompleteUnties(b.reg, r.worker, r.id, v, r.id);
        assert !OwnedOn(b', v, r.id);
      }
    }
  }

  lemma TickOwnedOn(b: Broker, now: real, ids: seq<TaskId>, v: WorkerId, x: TaskId)
    requires Valid(b.mgr) && Owned(b) && Elems(ids) == Orphans(b.reg, now)
    ensures OwnedOn(DoTick(b, now, ids), v, x)
  {
    var b' := DoTick(b, now, ids);
    RequeueAllWrites(b.mgr, ids);
    assert OwnedOn(b, v, x);
    PassDrops(b.reg, now, |Elems(ids) * b.mgr.inFlight|, v, x);
    if Tracks(b.reg, v, x) && x in Elems(ids) {
      var w :| w in Registry.Dead(b.reg, now) && x in b.reg.info[w].tracked;
      OneHolder(b, v, w, x);
    }
  }

  lemma OneHolder(b: Broker, v: WorkerId, w: WorkerId, x: TaskId)
    requires Owned(b) && Tracks(b.reg, v, x) && Tracks(b.reg, w, x)
    ensures v == w
  {
    assert OwnedOn(b, v, x) && OwnedOn(b, w, x);
  }

  lemma IssueOwnedOn(b: Broker, t: TaskRecord, store: Tables, v: WorkerId, x: TaskId)
    requires Valid(b.mgr) && OwnedOn(b, v, x) && t.id !in b.mgr.tasks
    ensures OwnedOn(Broker(Add(b.mgr, t), b.reg, store), v, x)
  {
  }

  lemma OtherOwnedOn(s: System, r: Request, v: WorkerId, x: TaskId)
    requires Inv(s) && s.up && Allowed(s, r) && OwnedOn(s.b, v, x)
    requires r.Produce? || r.Consume? || r.Join? || r.Beat? || r.Replay? || r.PurgeDlq?
    ensures OwnedOn(Handle(s.b, r), v, x)
  {
    match r
    case Produce(n, p, id, now) =>
      if n != "" {
        IssueOwnedOn(s.b, NewTask(id, n, p, now, 0), Handle(s.b, r).store, v, x);
      }
    case Consume(n, w) => ConsumeOwnedOn(s.b, n, w, v, x);
    case Replay(id, newId, now) =>
      if id in s.b.store.dlq {
        IssueOwnedOn(s.b, NewTask(newId, s.b.store.dlq[id].queue, s.b.store.dlq[id].payload, now, 0), Handle(s.b, r).store, v, x);
      }
    case _ =>
  }

  /** A command keeps tracking honest if and only if it is not an answer that leaves another worker tracking the task. */
  lemma CleanExactly(s: System, r: Request)
    requires Inv(s) && s.up && Allowed(s, r) && Owned(s.b)
    ensures Owned(Handle(s.b, r)) <==> Clean(s.b, r)
  {
    if r.Ack? || r.Nack? {
      AnswerOwned(s.b, r);
    } else {
      forall v, x ensures OwnedOn(Handle(s.b, r), v, x) {
        assert OwnedOn(s.b, v, x);
        if r.Tick? {
          TickOwnedOn(s.b, r.now, r.orphans, v, x);
        } else {
          OtherOwnedOn(s, r, v, x);
        }
      }
    }
  }

  // ------------------------------------------------------------------------- runs

  /** Every answer of the run comes from the worker the task was handed to. */
  ghost predicate HolderRun(s: System, es: seq<Event>)
    requires Wf(s) && Legal(s, es)
    decreases |es|
  {
    es == [] || ((es[0].Do? ==> ByHolder(s.b, es[0].req)) && HolderRun(Step(s, es[0]), es[1..]))
  }

  lemma NobodyTracks(b: Broker)
    requires b.reg == NoWorkers
    ensures Owned(b)
  {
    forall v, x ensures OwnedOn(b, v, x) {
    }
  }

  lemma {:induction false} RunOwned(s: System, es: seq<Event>)
    requires Inv(s) && Legal(s, es) && Owned(s.b) && HolderRun(s, es)
    ensures Owned(Run(s, es).b) && Inv(Run(s, es))
    decreases |es|
  {
    if es != [] {
      match es[0] {
        case Do(r) =>
          HolderIsClean(s.b, r);
          CleanExactly(s, r);
        case Crash(_, _) => NobodyTracks(Step(s, es[0]).b);
        case Recover(_, _, _) => NobodyTracks(Step(s, es[0]).b);
      }
      StepKeeps(s, es[0]);
      RunOwned(Step(s, es[0]), es[1..]);
    }
  }

  /** A pass returns exactly the in-flight tasks that some silent worker tracks. */
  lemma PassReturns(b: Broker, now: real, ids: seq<TaskId>, id: TaskId)
    requires Valid(b.mgr) && Elems(ids) == Orphans(b.reg, now) && id in b.mgr.inFlight
    ensures id in DoTick(b, now, ids).mgr.inFlight <==>
      forall w :: Tracks(b.reg, w, id) ==> now - b.reg.info[w].lastHeartbeat <= 6.0
  {
    RequeueAllWrites(b.mgr, ids);
    if id in Elems(ids) {
      var w :| w in Registry.Dead(b.reg, now) && id in b.reg.info[w].tracked;
      assert Tracks(b.reg, w, id);
    } else {
      forall w | Tracks(b.reg, w, id) ensures now - b.reg.info[w].lastHeartbeat <= 6.0 {
        assert w !in Registry.Dead(b.reg, now);
      }
    }
  }

  /** If every answer comes from the task's own worker, a pass takes a task only from a worker that fell silent holding it. */
  lemma TakenOnlyFromTheSilent(maxRetries: int, es: seq<Event>, now: real, ids: seq<TaskId>, id: TaskId)
    requires Legal(Initial(maxRetries), es) && HolderRun(Initial(maxRetries), es)
    requires Enabled(Run(Initial(maxRetries), es), Do(Tick(now, ids)))
    requires id in Run(Initial(maxRetries), es).b.mgr.inFlight
    requires id !in Step(Run(Initial(maxRetries), es), Do(Tick(now, ids))).b.mgr.inFlight
    ensures var b := Run(Initial(maxRetries), es).b;
      && id in b.mgr.tasks && b.mgr.tasks[id].worker.Some?
      && var w := b.mgr.tasks[id].worker.value;
         Tracks(b.reg, w, id) && now - b.reg.info[w].lastHeartbeat > 6.0
  {
    ReachedOwned(maxRetries, es);
    TakenFromHolder(Run(Initial(maxRetries), es).b, now, ids, id);
  }

  lemma TakenFromHolder(b: Broker, now: real, ids: seq<TaskId>, id: TaskId)
    requires Valid(b.mgr) && Owned(b) && Elems(ids) == Orphans(b.reg, now)
    requires id in b.mgr.inFlight && id !in DoTick(b, now, ids).mgr.inFlight
    ensures id in b.mgr.tasks && b.mgr.tasks[id].worker.Some?
    ensures var w := b.mgr.tasks[id].worker.value; Tracks(b.reg, w, id) && now - b.reg.info[w].lastHeartbeat > 6.0
  {
    PassReturns(b, now, ids, id);
    var w :| Tracks(b.reg, w, id) && now - b.reg.info[w].lastHeartbeat > 6.0;
    assert OwnedOn(b, w, id);
  }

  lemma ReachedOwned(maxRetries: int, es: seq<Event>)
    requires Legal(Initial(maxRetries), es) && HolderRun(Initial(maxRetries), es)
    ensures Owned(Run(Initial(maxRetries), es).b)
  {
    InitialInv(maxRetries);
    NobodyTracks(Initial(maxRetries).b);
    RunOwned(Initial(maxRetries), es);
  }

  lemma ReachedTracked(maxRetries: int, es: seq<Event>)
    requires Legal(Initial(maxRetries), es) && T.CarefulRun(Initial(maxRetries), es)
    ensures T.Tracked(Run(Initial(maxRetries), es).b)
  {
    InitialInv(maxRetries);
    T.NoneInFlight(Initial(maxRetries).b);
    T.RunTracked(Initial(maxRetries), es);
  }

  /**
   With careful consumers besides, a pass decides by the task's own worker alone: the task stays in flight if
   and only if that worker was heard from within the last 6 seconds.
   */
  lemma PassDecidesByHolder(maxRetries: int, es: seq<Event>, now: real, ids: seq<TaskId>, id: TaskId)
    requires Legal(Initial(maxRetries), es) && HolderRun(Initial(maxRetries), es) && T.CarefulRun(Initial(maxRetries), es)
    requires Enabled(Run(Initial(maxRetries), es), Do(Tick(now, ids)))
    requires id in Run(Initial(maxRetries), es).b.mgr.inFlight
    ensures var b := Run(Initial(maxRetries), es).b;
      && id in b.mgr.tasks && b.mgr.tasks[id].worker.Some? && b.mgr.tasks[id].worker.value in b.reg.info
      && (id in Step(Run(Initial(maxRetries), es), Do(Tick(now, ids))).b.mgr.inFlight
          <==> now - b.reg.info[b.mgr.tasks[id].worker.value].lastHeartbeat <= 6.0)
  {
    ReachedOwned(maxRetries, es);
    ReachedTracked(maxRetries, es);
    HolderDecides(Run(Initial(maxRetries), es).b, now, ids, id);
  }

  lemma HolderDecides(b: Broker, now: real, ids: seq<TaskId>, id: TaskId)
    requires Valid(b.mgr) && Owned(b) && T.Tracked(b) && Elems(ids) == Orphans(b.reg, now) && id in b.mgr.inFlight
    ensures id in b.mgr.tasks && b.mgr.tasks[id].worker.Some? && b.mgr.tasks[id].worker.value in b.reg.info
    ensures id in DoTick(b, now, ids).mgr.inFlight
            <==> now - b.reg.info[b.mgr.tasks[id].worker.value].lastHeartbeat <= 6.0
  {
    assert T.TrackedOn(b, id);
    var w := b.mgr.tasks[id].worker.value;
    assert Tracks(b.reg, w, id);
    PassReturns(b, now, ids, id);
    forall v | Tracks(b.reg, v, id) ensures v == w {
      assert OwnedOn(b, v, id);
    }
  }

  // ------------------------------------------------------- where returned tasks go

  // The tasks of queue n that the pass returns, the last returned first.
  function Fronted(m: QueueState, ids: seq<TaskId>, n: QueueName): seq<TaskId>
    requires Valid(m)
    decreases |ids|
  {
    if ids == [] then []
    else
      var mine := ids[0] in m.inFlight && m.tasks[ids[0]].queue == n;
      Fronted(RequeueById(m, ids[0]), ids[1..], n) + (if mine then [ids[0]] else [])
  }

  lemma RequeueQueueOf(m: QueueState, id: TaskId, n: QueueName)
    requires Valid(m)
    ensures QueueOf(RequeueById(m, id), n)
      == (if id in m.inFlight && m.tasks[id].queue == n then [id] else []) + QueueOf(m, n)
  {
  }

  lemma {:induction false} PassQueueOf(m: QueueState, ids: seq<TaskId>, n: QueueName)
    requires Valid(m)
    ensures QueueOf(RequeueAll(m, ids), n) == Fronted(m, ids, n) + QueueOf(m, n)
    decreases |ids|
  {
    if ids != [] {
      var m1 := RequeueById(m, ids[0]);
      RequeueQueueOf(m, ids[0], n);
      PassQueueOf(m1, ids[1..], n);
      Regroup(Fronted(m1, ids[1..], n), if ids[0] in m.inFlight && m.tasks[ids[0]].queue == n then [ids[0]] else [], QueueOf(m, n));
    }
  }

  lemma {:induction false} FrontedMembers(m: QueueState, ids: seq<TaskId>, n: QueueName, x: TaskId)
    requires Valid(m)
    ensures x in Fronted(m, ids, n) <==> x in ids && x in m.inFlight && m.tasks[x].queue == n
    decreases |ids|
  {
    if ids != [] {
      var m1 := RequeueById(m, ids[0]);
      RequeueWrites(m, ids[0]);
      FrontedMembers(m1, ids[1..], n, x);
    }
  }

  /** Returned tasks go ahead of everything that was waiting: each queue is the returned tasks of that queue, then the queue as it was. */
  lemma ReturnedGoFirst(b: Broker, now: real, ids: seq<TaskId>, n: QueueName) returns (front: seq<TaskId>)
    requires Valid(b.mgr) && Elems(ids) == Orphans(b.reg, now)
    ensures QueueOf(DoTick(b, now, ids).mgr, n) == front + QueueOf(b.mgr, n)
    ensures forall x :: x in front <==> x in Orphans(b.reg, now) && x in b.mgr.inFlight && b.mgr.tasks[x].queue == n
  {
    front := Fronted(b.mgr, ids, n);
    PassQueueOf(b.mgr, ids, n);
    forall x ensures x in front <==> x in Orphans(b.reg, now) && x in b.mgr.inFlight && b.mgr.tasks[x].queue == n {
      FrontedMembers(b.mgr, ids, n, x);
      assert x in ids <==> x in Elems(ids);
    }
  }
}
