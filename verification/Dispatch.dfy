/**
 Which queue a CONSUME serves: the one it names, or for the wildcard the first non-empty one in the order in
 which the queues were first heard of since the broker started.
 */
module Dispatch {
  import opened Tasks
  import opened Queues
  import opened WalStore
  import opened Handlers
  import opened Runs
  import opened Placement
  import opened Agreement
  import opened Durability
  import opened Recovery
  import opened CrashSafety

  // ------------------------------------------------------------------ a named queue

  predicate Waiting(m: QueueState, n: QueueName) {
    n in m.queues && m.queues[n] != []
  }

  /** A CONSUME that names a queue is served from the head of that queue, and gets nothing exactly when that queue has nothing. */
  lemma NamedQueueServed(b: Broker, n: QueueName, w: WorkerId)
    requires Placed(b.mgr) && n != "" && n != "*"
    ensures Delivery(b, n, w).Some? <==> n in b.mgr.queues && b.mgr.queues[n] != []
    ensures Delivery(b, n, w).Some? ==>
      var id := Delivery(b, n, w).value;
      id == b.mgr.queues[n][0] && id in b.mgr.tasks && b.mgr.tasks[id].queue == n
  {
    if Waiting(b.mgr, n) {
      QueueIsPending(b.mgr, n, 0);
    }
  }

  /** It takes that one task and leaves every other queue alone. */
  lemma NamedQueueTaken(b: Broker, n: QueueName, w: WorkerId, k: QueueName)
    requires Valid(b.mgr) && n != "" && n != "*"
    ensures QueueOf(DoConsume(b, n, w).mgr, k) ==
      if k == n && QueueOf(b.mgr, n) != [] then QueueOf(b.mgr, n)[1..] else QueueOf(b.mgr, k)
  {
  }

  // ------------------------------------------------------------------ the wildcard

  /** The k-th queue in order of names has something, and none before it does. */
  predicate FirstBusy(m: QueueState, k: nat) {
    && k < |m.names| && Waiting(m, m.names[k])
    && forall j :: 0 <= j < k ==> !Waiting(m, m.names[j])
  }

  lemma {:induction false} FirstFound(names: seq<QueueName>, queues: map<QueueName, seq<TaskId>>) returns (k: nat)
    requires (forall n :: n in names ==> n in queues) && FirstNonEmpty(names, queues).Some?
    ensures k < |names| && FirstNonEmpty(names, queues) == Some(names[k])
    ensures forall j :: 0 <= j < k ==> queues[names[j]] == []
    decreases |names|
  {
    if queues[names[0]] != [] {
      k := 0;
    } else {
      var i := FirstFound(names[1..], queues);
      k := i + 1;
      forall j | 0 <= j < k ensures queues[names[j]] == [] {
        if j > 0 {
          assert names[j] == names[1..][j - 1];
        }
      }
    }
  }

  /** The wildcard is served from the first queue that has anything; every queue ahead of it in the name order is empty. */
  lemma WildcardServesFirst(b: Broker, w: WorkerId) returns (k: nat)
    requires Placed(b.mgr) && Delivery(b, "*", w).Some?
    ensures FirstBusy(b.mgr, k)
    ensures var id, n := Delivery(b, "*", w).value, b.mgr.names[k];
      id == b.mgr.queues[n][0] && id in b.mgr.tasks && b.mgr.tasks[id].queue == n
  {
    k := FirstFound(b.mgr.names, b.mgr.queues);
    QueueIsPending(b.mgr, b.mgr.names[k], 0);
  }

  lemma WildcardGetsNothing(b: Broker, w: WorkerId)
    requires Valid(b.mgr) && "" !in b.mgr.queues
    ensures Delivery(b, "*", w).None? <==> forall n :: n in b.mgr.queues ==> b.mgr.queues[n] == []
  {
  }

  // ----------------------------------------------------------------- the name order

  /** A name heard of for the first time goes last. */
  function Mention(names: seq<QueueName>, n: QueueName): seq<QueueName> {
    if n in names then names else names + [n]
  }

  /** The queue a command makes the broker hear of, if any. */
  function Mentioned(b: Broker, r: Request): Option<QueueName> {
    match r
    case Produce(n, _, _, _) => if n == "" then None else Some(n)
    case Consume(n, _) => if n == "" || n == "*" then None else Some(n)
    case Replay(id, _, _) => if id in b.store.dlq then Some(b.store.dlq[id].queue) else None
    case _ => None
  }

  /** Every task's queue exists, and no queue is nameless. */
  ghost predicate Housed(m: QueueState) {
    Valid(m) && "" !in m.queues && forall id :: id in m.tasks ==> m.tasks[id].queue in m.queues
  }

  ghost predicate Homed(s: System) {
    (forall id :: id in s.h.issued ==> s.h.issued[id].queue != "") && Housed(s.b.mgr)
  }

  lemma AddHoused(m: QueueState, t: TaskRecord)
    requires Housed(m) && t.queue != ""
    ensures Housed(Add(m, t)) && Add(m, t).names == Mention(m.names, t.queue)
  {
  }

  lemma DequeueHoused(m: QueueState, n: QueueName, w: WorkerId)
    requires Housed(m) && Placed(m) && n != ""
    ensures Housed(Dequeue(m, n, w).0)
    ensures Dequeue(m, n, w).0.names == if n == "*" then m.names else Mention(m.names, n)
  {
    DequeueWrites(m, n, w);
  }

  lemma RequeueHoused(m: QueueState, id: TaskId)
    requires Housed(m)
    ensures Housed(RequeueById(m, id)) && RequeueById(m, id).names == m.names
  {
    RequeueWrites(m, id);
  }

  lemma {:induction false} RequeueAllHoused(m: QueueState, ids: seq<TaskId>)
    requires Housed(m)
    ensures Housed(RequeueAll(m, ids)) && RequeueAll(m, ids).names == m.names
    decreases |ids|
  {
    if ids != [] {
      RequeueHoused(m, ids[0]);
      RequeueAllHoused(RequeueById(m, ids[0]), ids[1..]);
    }
  }

  lemma NackNames(m: QueueState, id: TaskId)
    requires Housed(m) && id in m.inFlight
    ensures Queues.Nack(m, id).names == m.names && Queues.Nack(m, id).queues.Keys == m.queues.Keys
  {
  }

  lemma AnswerHoused(b: Broker, r: Request)
    requires Housed(b.mgr) && (r.Ack? || r.Nack?)
    ensures Housed(Handle(b, r).mgr) && Handle(b, r).mgr.names == b.mgr.names
  {
    if r.Nack? && r.id in b.mgr.inFlight {
      NackWrites(b.mgr, r.id);
      NackNames(b.mgr, r.id);
    }
  }

  /** A command either leaves the name order alone or appends the one new name it mentions. */
  lemma NamesFollow(s: System, r: Request)
    requires Inv(s) && s.up && Homed(s)
    ensures Housed(Handle(s.b, r).mgr)
    ensures Handle(s.b, r).mgr.names ==
      match Mentioned(s.b, r) case Some(n) => Mention(s.b.mgr.names, n) case None => s.b.mgr.names
  {
    match r
    case Produce(n, p, id, now) =>
      if n != "" {
        AddHoused(s.b.mgr, NewTask(id, n, p, now, 0));
      }
    case Consume(n, w) =>
      if n != "" {
        DequeueHoused(s.b.mgr, n, w);
      }
    case Ack(_, _) => AnswerHoused(s.b, r);
    case Nack(_, _) => AnswerHoused(s.b, r);
    case Tick(_, ids) => RequeueAllHoused(s.b.mgr, ids);
    case Replay(id, newId, now) =>
      if id in s.b.store.dlq {
        assert DeadFromOrigin(s.b.store.dlq[id], s.h);
        AddHoused(s.b.mgr, NewTask(newId, s.b.store.dlq[id].queue, s.b.store.dlq[id].payload, now, 0));
      }
    case _ =>
  }

  lemma NoteHomed(s: System, r: Request)
    requires Inv(s) && s.up && Homed(s)
    ensures forall id :: id in Note(s.b, s.h, r).issued ==> Note(s.b, s.h, r).issued[id].queue != ""
  {
    if r.Replay? && r.id in s.b.store.dlq {
      assert DeadFromOrigin(s.b.store.dlq[r.id], s.h);
    }
  }

  // ------------------------------------------------------------------------- runs

  lemma {:induction false} RebuildHoused(m: QueueState, rows: seq<Row>, now: real)
    requires Housed(m) && forall r :: r in rows ==> r.queue != ""
    ensures Housed(Rebuild(m, rows, now))
    decreases |rows|
  {
    if rows != [] {
      assert rows[0] in rows;
      AddHoused(m, Recovered(rows[0], now));
      RebuildHoused(Add(m, Recovered(rows[0], now)), rows[1..], now);
    }
  }

  lemma RestartHomed(s: System, rows: seq<Row>, done: nat, now: real)
    requires Inv(s) && Homed(s) && IsLoad(s.b.store, rows) && done <= |rows|
    ensures Homed(Restart(s, rows, done, now))
  {
    forall r | r in rows ensures r.queue != "" {
      RowIsIssued(s.b.store, s.h, r.id);
    }
    RebuildHoused(Empty(s.b.mgr.maxRetries), rows, now);
  }

  lemma CrashHomed(s: System, r: Request, k: nat)
    requires Inv(s) && Homed(s) && Enabled(s, Crash(r, k))
    ensures Homed(Step(s, Crash(r, k)))
  {
    NoteHomed(s, r);
  }

  lemma StepHomed(s: System, e: Event)
    requires Inv(s) && Homed(s) && Enabled(s, e)
    ensures Homed(Step(s, e))
  {
    match e
    case Do(r) =>
      NamesFollow(s, r);
      NoteHomed(s, r);
    case Crash(r, k) => CrashHomed(s, r, k);
    case Recover(rows, done, now) => RestartHomed(s, rows, done, now);
  }

  lemma {:induction false} RunHomed(s: System, es: seq<Event>)
    requires Inv(s) && Homed(s) && Legal(s, es)
    ensures Inv(Run(s, es)) && Homed(Run(s, es))
    decreases |es|
  {
    if es != [] {
      StepKeeps(s, es[0]);
      StepHomed(s, es[0]);
      RunHomed(Step(s, es[0]), es[1..]);
    }
  }

  lemma ReachedHomed(maxRetries: int, es: seq<Event>)
    requires Legal(Initial(maxRetries), es)
    ensures Inv(Run(Initial(maxRetries), es)) && Homed(Run(Initial(maxRetries), es))
  {
    InitialInv(maxRetries);
    RunHomed(Initial(maxRetries), es);
  }

  /** Over every run: a worker that asks for a queue gets a task of that queue or nothing, and nothing only when the queue has nothing. */
  lemma ConsumersGetWhatTheyAskFor(maxRetries: int, es: seq<Event>, n: QueueName, w: WorkerId)
    requires Legal(Initial(maxRetries), es) && Run(Initial(maxRetries), es).up && n != "" && n != "*"
    ensures var s := Run(Initial(maxRetries), es);
      match Delivery(s.b, n, w)
      case Some(id) => id in s.h.issued && s.h.issued[id].queue == n && Waiting(s.b.mgr, n) && s.b.mgr.queues[n][0] == id
      case None => !Waiting(s.b.mgr, n)
  {
    Reachable(maxRetries, es);
    var s := Run(Initial(maxRetries), es);
    NamedQueueServed(s.b, n, w);
    if Delivery(s.b, n, w).Some? {
      ConsumeDelta(s.b, n, w);
      assert AgreeOn(s.b.mgr, s.b.store, Delivery(s.b, n, w).value);
      RowIsIssued(s.b.store, s.h, Delivery(s.b, n, w).value);
    }
  }

  /** Over every run: a worker that asks for anything gets nothing only when every queue is empty. */
  lemma WildcardMissesNothing(maxRetries: int, es: seq<Event>, w: WorkerId)
    requires Legal(Initial(maxRetries), es) && Run(Initial(maxRetries), es).up
    ensures var s := Run(Initial(maxRetries), es);
      Delivery(s.b, "*", w).None? <==> forall n :: n in s.b.mgr.queues ==> s.b.mgr.queues[n] == []
  {
    ReachedHomed(maxRetries, es);
    WildcardGetsNothing(Run(Initial(maxRetries), es).b, w);
  }

  /** The names heard of by a list of commands served one after the other, in order of first mention. */
  ghost function Heard(s: System, rs: seq<Request>, names: seq<QueueName>): seq<QueueName>
    requires Wf(s)
    decreases |rs|
  {
    if rs == [] then names
    else Heard(Serve(s, rs[0]), rs[1..], match Mentioned(s.b, rs[0]) case Some(n) => Mention(names, n) case None => names)
  }

  ghost predicate Served(s: System, rs: seq<Request>)
    requires Wf(s)
    decreases |rs|
  {
    rs == [] || (Allowed(s, rs[0]) && Served(Serve(s, rs[0]), rs[1..]))
  }

  function ServeAll(s: System, rs: seq<Request>): (s': System)
    requires Wf(s)
    ensures Wf(s')
    decreases |rs|
  {
    if rs == [] then s else ServeAll(Serve(s, rs[0]), rs[1..])
  }

  /** While the broker is up, the order the wildcard goes by is the order of first mention. */
  lemma {:induction false} OrderOfFirstMention(s: System, rs: seq<Request>)
    requires Inv(s) && s.up && Homed(s) && Served(s, rs)
    ensures ServeAll(s, rs).b.mgr.names == Heard(s, rs, s.b.mgr.names)
    decreases |rs|
  {
    if rs != [] {
      NamesFollow(s, rs[0]);
      NoteHomed(s, rs[0]);
      ServeKeeps(s, rs[0]);
      OrderOfFirstMention(Serve(s, rs[0]), rs[1..]);
    }
  }
}
