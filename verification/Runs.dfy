/**
 Runs of a persistent broker: any sequence of requests, crashes at any commit boundary,
 and recoveries that may themselves be cut short.

 `History` records what an outside observer knows: which tasks were issued with which
 content, which were accepted, acknowledged, replayed or purged, and how often each was requeued.
 */
module Runs {
  import opened Tasks
  import opened Queues
  import opened WalStore
  import opened Registry
  import opened Handlers

  datatype Origin = Origin(queue: QueueName, payload: Payload, born: real)

  datatype History = History(
    issued: map<TaskId, Origin>,
    clock: real,                       // the creation time issued last
    accepted: set<TaskId>,             // PRODUCE or DLQ_REPLAY answered ok
    acked: set<TaskId>,                // ACK answered ok
    replayed: map<TaskId, TaskId>,     // dead letter -> the task that replaced it
    purged: set<TaskId>,
    lost: set<TaskId>,                 // dropped by a crash inside DLQ_REPLAY
    nacks: map<TaskId, nat>,           // requeues by NACK
    bumps: map<TaskId, nat>)           // requeues by eviction or crash

  datatype System = System(up: bool, b: Broker, h: History)

  datatype Event =
    | Do(req: Request)
    | Crash(during: Request, commits: nat)          // after that many of the handler's commits
    | Recover(rows: seq<Row>, done: nat, now: real) // the recovery loop, cut off after `done` rows

  function Initial(maxRetries: int): System {
    System(true, Broker(Empty(maxRetries), NoWorkers, Tables(map[], map[])),
           History(map[], 0.0, {}, {}, map[], {}, {}, map[], map[]))
  }

  ghost predicate Wf(s: System) {
    Valid(s.b.mgr)
  }

  function Count(m: map<TaskId, nat>, id: TaskId): nat {
    if id in m then m[id] else 0
  }

  function Bump(m: map<TaskId, nat>, ids: set<TaskId>): (r: map<TaskId, nat>)
    ensures forall id :: Count(r, id) == Count(m, id) + if id in ids then 1 else 0
  {
    map id | id in m.Keys + ids :: Count(m, id) + if id in ids then 1 else 0
  }

  // ------------------------------------------------------------------ steps

  /** What the environment guarantees: UUIDs never issued before. Creation times may tie or step back. */
  predicate Allowed(s: System, r: Request) {
    && Possible(s.b, r)
    && (r.Produce? ==> r.id !in s.h.issued)
    && (r.Replay? ==> r.newId !in s.h.issued)
  }

  ghost predicate Enabled(s: System, e: Event)
    requires Wf(s)
  {
    match e
    case Do(r) => s.up && Allowed(s, r)
    case Crash(r, k) => s.up && Allowed(s, r) && k <= |Commits(s.b, r)|
    case Recover(rows, done, _) => !s.up && IsLoad(s.b.store, rows) && done <= |rows|
  }

  function Issue(h: History, id: TaskId, o: Origin): History {
    h.(issued := h.issued[id := o], clock := o.born, accepted := h.accepted + {id})
  }

  function Note(b: Broker, h: History, r: Request): History
    requires Valid(b.mgr)
  {
    match r
    case Produce(n, p, id, now) => if n == "" then h else Issue(h, id, Origin(n, p, now))
    case Ack(id, _) => if id in b.mgr.inFlight then h.(acked := h.acked + {id}) else h
    case Nack(id, _) =>
      if id in b.mgr.inFlight && !Exhausted(b.mgr, id) then h.(nacks := Bump(h.nacks, {id})) else h
    case Tick(_, ids) => h.(bumps := Bump(h.bumps, Elems(ids) * b.mgr.inFlight))
    case Replay(id, newId, now) =>
      if id !in b.store.dlq then h
      else Issue(h, newId, Origin(b.store.dlq[id].queue, b.store.dlq[id].payload, now)).(replayed := h.replayed[id := newId])
    case PurgeDlq(q) => h.(purged := h.purged + PurgedIds(b.store, q))
    case _ => h
  }

  function Serve(s: System, r: Request): (s': System)
    requires Wf(s)
    ensures Wf(s')
  {
    s.(b := Handle(s.b, r), h := Note(s.b, s.h, r))
  }

  /** The handler made all its commits, but its answer was never sent. */
  function Finished(s: System, r: Request): (s': System)
    requires Wf(s)
    ensures Wf(s')
  {
    var s' := Serve(s, r);
    s'.(h := s'.h.(accepted := s.h.accepted, acked := s.h.acked))
  }

  /** DLQ_REPLAY, the only handler with two commits, stopped between them. */
  function Torn(s: System, id: TaskId): System {
    s.(b := s.b.(store := ReplayHalf(s.b.store, id)), h := s.h.(lost := s.h.lost + {id}))
  }

  /** The handler ran to its k-th commit and the broker died before answering. */
  function Unanswered(s: System, r: Request, k: nat): (s': System)
    requires Wf(s) && k <= |Commits(s.b, r)|
    ensures Wf(s')
  {
    if k == 0 then s else if k == |Commits(s.b, r)| then Finished(s, r) else Torn(s, r.id)
  }

  /** Whatever the crash point, what survives is the store after the last commit made. */
  lemma CrashLeavesLastCommit(s: System, r: Request, k: nat)
    requires Wf(s) && k <= |Commits(s.b, r)|
    ensures Unanswered(s, r, k).b.store == if k == 0 then s.b.store else Commits(s.b, r)[k - 1]
  {
    if k == |Commits(s.b, r)| && k > 0 {
      CommittedBeforeAnswer(s.b, r);
    }
  }

  /** The same for a recovery cut short: what survives is the store after the last row it reached. */
  lemma RecoveryLeavesLastCommit(s: System, rows: seq<Row>, done: nat, now: real)
    requires done <= |rows|
    ensures Restart(s, rows, done, now).b.store == if done == 0 then s.b.store else RecoveryCommits(s.b.store, rows)[done - 1]
  {
  }

  /** Memory is gone; tasks that were in flight will be handed out again. */
  function LoseMemory(s: System): (s': System)
    ensures Wf(s')
  {
    System(false, Broker(Empty(s.b.mgr.maxRetries), NoWorkers, s.b.store),
           s.h.(bumps := Bump(s.h.bumps, s.b.mgr.inFlight)))
  }

  /** The recovery loop's effect on memory ... */
  function Rebuild(m: QueueState, rows: seq<Row>, now: real): (r: QueueState)
    requires Valid(m)
    ensures Valid(r)
    decreases |rows|
  {
    if rows == [] then m
    else
      var row := rows[0];
      Rebuild(Add(m, NewTask(row.id, row.queue, row.payload, now, row.attempts)), rows[1..], now)
  }

  /** ... and on the store. */
  function Reset(s: Tables, rows: seq<Row>): Tables
    decreases |rows|
  {
    if rows == [] then s
    else Reset(UpdateStatus(s, rows[0].id, Pending, Some(rows[0].attempts), None), rows[1..])
  }

  /** The store after each commit of the recovery loop. */
  function RecoveryCommits(s: Tables, rows: seq<Row>): seq<Tables> {
    seq(|rows|, i requires 0 <= i < |rows| => Reset(s, rows[..i + 1]))
  }

  /** A recovery that visits every row brings the broker up; a shorter one dies again. */
  function Restart(s: System, rows: seq<Row>, done: nat, now: real): (s': System)
    requires done <= |rows|
    ensures Wf(s')
  {
    var empty := Empty(s.b.mgr.maxRetries);
    System(done == |rows|,
           Broker(if done == |rows| then Rebuild(empty, rows, now) else empty, NoWorkers,
                  Reset(s.b.store, rows[..done])),
           s.h)
  }

  function Step(s: System, e: Event): (s': System)
    requires Wf(s) && Enabled(s, e)
    ensures Wf(s')
  {
    match e
    case Do(r) => Serve(s, r)
    case Crash(r, k) => LoseMemory(Unanswered(s, r, k))
    case Recover(rows, done, now) => Restart(s, rows, done, now)
  }

  ghost predicate Legal(s: System, es: seq<Event>)
    requires Wf(s)
    decreases |es|
  {
    es == [] || (Enabled(s, es[0]) && Legal(Step(s, es[0]), es[1..]))
  }

  ghost function Run(s: System, es: seq<Event>): (r: System)
    requires Wf(s) && Legal(s, es)
    ensures Wf(r)
    decreases |es|
  {
    if es == [] then s else Run(Step(s, es[0]), es[1..])
  }
}
