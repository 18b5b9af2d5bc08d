/**
 Runs of ordinary requests after which a promise one might expect of the broker fails. They start
 from an empty database and the default of three attempts.
 */
module Witnesses {
  import opened Tasks
  import opened Queues
  import opened WalStore
  import opened Registry
  import opened Handlers
  import opened Runs
  import opened Placement
  import opened Agreement
  import opened Durability
  import opened CrashSafety
  import opened Tracking

  const Q: QueueName := "q"
  const P: Payload := "{\"n\": 1}"
  const MAX_RETRIES := 3

  lemma {:induction false} RunAppend(s: System, es: seq<Event>, e: Event)
    requires Wf(s) && Legal(s, es) && Enabled(Run(s, es), e)
    ensures Legal(s, es + [e]) && Run(s, es + [e]) == Step(Run(s, es), e)
    decreases |es|
  {
    if es == [] {
      assert es + [e] == [e];
      assert Legal(Step(s, e), []);
    } else {
      assert (es + [e])[0] == es[0] && (es + [e])[1..] == es[1..] + [e];
      RunAppend(Step(s, es[0]), es[1..], e);
    }
  }

  // ------------------------------------------------------------- dead letters pile up

  /** n tasks were produced, delivered three times and dead-lettered, and `doomed` more tasks (0 or 1) produced. */
  ghost predicate Base(s: System, n: nat, doomed: nat) {
    && Inv(s) && s.up && s.b.mgr.maxRetries == MAX_RETRIES
    && |s.b.mgr.dlq| == n
    && (forall id: TaskId :: id in s.h.issued <==> id < n + doomed)
    && (forall id: TaskId :: id < n ==> id in s.b.store.dlq)
    && s.h.replayed == map[] && s.h.purged == {}
  }

  ghost predicate Graveyard(s: System, n: nat) {
    && Base(s, n, 0) && s.b.mgr.inFlight == {} && (Q in s.b.mgr.queues ==> s.b.mgr.queues[Q] == [])
  }

  /** Task n waits in the queue with so many attempts behind it. */
  ghost predicate Waiting(s: System, n: nat, attempts: nat) {
    && Base(s, n, 1) && s.b.mgr.inFlight == {} && Q in s.b.mgr.queues && s.b.mgr.queues[Q] == [n]
    && n in s.b.mgr.tasks && s.b.mgr.tasks[n].attempts == attempts && s.b.mgr.tasks[n].queue == Q
    && s.h.issued[n].payload == P
  }

  ghost predicate Running(s: System, n: nat, attempts: nat) {
    && Base(s, n, 1) && s.b.mgr.inFlight == {n} && Q in s.b.mgr.queues && s.b.mgr.queues[Q] == []
    && s.b.mgr.tasks[n].attempts == attempts && s.b.mgr.tasks[n].queue == Q
    && s.h.issued[n].payload == P
  }

  function Birth(n: nat): Event { Do(Produce(Q, P, n, n as real)) }

  function Take(): Event { Do(Consume(Q, 0)) }

  function Fail(n: nat): Event { Do(Nack(n, 0)) }

  lemma ProduceOne(s: System, n: nat)
    requires Graveyard(s, n)
    ensures Enabled(s, Birth(n)) && Waiting(Step(s, Birth(n)), n, 0)
  {
    assert Enabled(s, Birth(n));
    StepKeeps(s, Birth(n));
  }

  lemma PopOnly(m: QueueState, n: TaskId)
    requires Valid(m) && Q in m.queues && m.queues[Q] == [n] && m.inFlight == {} && n in m.tasks && m.tasks[n].id == n
    ensures Dequeue(m, Q, 0).1 == Some(n)
    ensures var m' := Dequeue(m, Q, 0).0;
      && m'.inFlight == {n} && Q in m'.queues && m'.queues[Q] == [] && m'.dlq == m.dlq && m'.maxRetries == m.maxRetries
      && m'.tasks[n].attempts == m.tasks[n].attempts + 1 && m'.tasks[n].queue == m.tasks[n].queue
  {
  }

  lemma ConsumeOnly(s: System, n: nat)
    requires Wf(s) && Dequeue(s.b.mgr, Q, 0).1 == Some(n)
    ensures var s' := Serve(s, Consume(Q, 0));
      s'.h == s.h && s'.up == s.up && s'.b.mgr == Dequeue(s.b.mgr, Q, 0).0 && s'.b.store.dlq == s.b.store.dlq
  {
  }

  lemma ConsumeOne(s: System, n: nat, attempts: nat)
    requires Waiting(s, n, attempts)
    ensures Enabled(s, Take()) && Running(Step(s, Take()), n, attempts + 1)
  {
    StepKeeps(s, Take());
    StatusIsPlace(s.b.mgr, n);
    PopOnly(s.b.mgr, n);
    ConsumeOnly(s, n);
  }

  lemma NackBack(m: QueueState, n: TaskId)
    requires Valid(m) && m.inFlight == {n} && Q in m.queues && m.queues[Q] == [] && m.tasks[n].queue == Q && !Exhausted(m, n)
    ensures var m' := Queues.Nack(m, n);
      Q in m'.queues && m'.queues[Q] == [n] && m'.dlq == m.dlq
  {
  }

  /** Short of the limit the task goes back to wait. */
  lemma RetryOne(s: System, n: nat, attempts: nat)
    requires Running(s, n, attempts) && attempts < MAX_RETRIES
    ensures Enabled(s, Fail(n)) && Waiting(Step(s, Fail(n)), n, attempts)
  {
    StepKeeps(s, Fail(n));
    NackWrites(s.b.mgr, n);
    NackBack(s.b.mgr, n);
    NackDelta(s.b, n, 0);
  }

  lemma BuryOne(s: System, n: nat)
    requires Running(s, n, MAX_RETRIES)
    ensures Enabled(s, Fail(n)) && Graveyard(Step(s, Fail(n)), n + 1)
    ensures Step(s, Fail(n)).b == DoNack(s.b, n, 0)
  {
    StepKeeps(s, Fail(n));
    NackWrites(s.b.mgr, n);
    StatusIsPlace(s.b.mgr, n);
    NackDelta(s.b, n, 0);
  }

  lemma EmptyGraveyard()
    ensures Graveyard(Initial(MAX_RETRIES), 0)
  {
    InitialInv(MAX_RETRIES);
    assert Initial(MAX_RETRIES).h.issued == map[];
  }

  /** A run that has just handed out task n for the k-th time. */
  ghost predicate Handed(es: seq<Event>, n: nat, k: nat) {
    Legal(Initial(MAX_RETRIES), es) && Running(Run(Initial(MAX_RETRIES), es), n, k)
  }

  ghost predicate Buried(es: seq<Event>, n: nat) {
    Legal(Initial(MAX_RETRIES), es) && Graveyard(Run(Initial(MAX_RETRIES), es), n)
  }

  /** A run after which task n waits with k attempts behind it. */
  ghost predicate Due(es: seq<Event>, n: nat, k: nat) {
    Legal(Initial(MAX_RETRIES), es) && Waiting(Run(Initial(MAX_RETRIES), es), n, k)
  }

  lemma TakeIt(es: seq<Event>, n: nat, attempts: nat) returns (es': seq<Event>)
    requires Due(es, n, attempts)
    ensures Handed(es', n, attempts + 1)
  {
    ConsumeOne(Run(Initial(MAX_RETRIES), es), n, attempts);
    RunAppend(Initial(MAX_RETRIES), es, Take());
    es' := es + [Take()];
  }

  lemma ProduceNext(es: seq<Event>, n: nat) returns (es': seq<Event>)
    requires Buried(es, n)
    ensures Due(es', n, 0)
  {
    ProduceOne(Run(Initial(MAX_RETRIES), es), n);
    RunAppend(Initial(MAX_RETRIES), es, Birth(n));
    es' := es + [Birth(n)];
  }

  lemma TakeAgain(es: seq<Event>, n: nat, attempts: nat) returns (es': seq<Event>)
    requires Handed(es, n, attempts) && attempts < MAX_RETRIES
    ensures Handed(es', n, attempts + 1)
  {
    RetryOne(Run(Initial(MAX_RETRIES), es), n, attempts);
    RunAppend(Initial(MAX_RETRIES), es, Fail(n));
    es' := TakeIt(es + [Fail(n)], n, attempts);
  }

  lemma {:induction false} LastChance(es: seq<Event>, n: nat, k: nat) returns (es': seq<Event>)
    requires Due(es, n, 0) && 1 <= k <= MAX_RETRIES
    ensures Handed(es', n, k)
    decreases k
  {
    if k == 1 {
      es' := TakeIt(es, n, 0);
    } else {
      es' := LastChance(es, n, k - 1);
      es' := TakeAgain(es', n, k - 1);
    }
  }

  lemma Bury(es: seq<Event>, n: nat) returns (es': seq<Event>)
    requires Handed(es, n, MAX_RETRIES)
    ensures Buried(es', n + 1)
  {
    BuryOne(Run(Initial(MAX_RETRIES), es), n);
    RunAppend(Initial(MAX_RETRIES), es, Fail(n));
    es' := es + [Fail(n)];
  }

  /** Any number of dead letters can pile up in memory. */
  lemma {:induction false} PileUp(n: nat) returns (es: seq<Event>)
    ensures Buried(es, n)
  {
    if n == 0 {
      es := NothingBuried();
    } else {
      es := PileUp(n - 1);
      es := PileOne(es, n - 1);
    }
  }

  lemma NothingBuried() returns (es: seq<Event>)
    ensures Buried(es, 0)
  {
    EmptyGraveyard();
    es := [];
  }

  lemma PileOne(es: seq<Event>, n: nat) returns (es': seq<Event>)
    requires Buried(es, n)
    ensures Buried(es', n + 1)
  {
    var born := ProduceNext(es, n);
    var handed := LastChance(born, n, MAX_RETRIES);
    es' := Bury(handed, n);
  }

  /** A run in which the 101st dead letter is stored without its payload. */
  lemma PayloadForgotten() returns (es: seq<Event>)
    ensures Legal(Initial(MAX_RETRIES), es)
    ensures var s := Run(Initial(MAX_RETRIES), es);
      100 in s.b.store.dlq && 100 in s.h.issued && s.h.issued[100].payload == P && s.b.store.dlq[100].payload == NO_PAYLOAD
  {
    es := PileUp(100);
    es := ProduceNext(es, 100);
    es := LastChance(es, 100, MAX_RETRIES);
    var s := Run(Initial(MAX_RETRIES), es);
    BuryOne(s, 100);
    DeadLetterPayload(s, 100, 0);
    RunAppend(Initial(MAX_RETRIES), es, Fail(100));
    es := es + [Fail(100)];
    var s' := Run(Initial(MAX_RETRIES), es);
    assert DeadFromOrigin(s'.b.store.dlq[100], s'.h);
  }

  // -------------------------------------------------------------------- torn replay

  /** A run in which an accepted task is in neither table: the broker dies between the two commits of its replay. */
  lemma ReplayTorn() returns (es: seq<Event>)
    ensures Legal(Initial(MAX_RETRIES), es)
    ensures var s := Run(Initial(MAX_RETRIES), es);
      0 in s.h.issued && 0 !in s.b.store.tasks && 0 !in s.b.store.dlq && s.h.replayed == map[] && s.h.purged == {} && 0 in s.h.lost
  {
    es := PileUp(1);
    var s := Run(Initial(MAX_RETRIES), es);
    TearFirst(s);
    RunAppend(Initial(MAX_RETRIES), es, Crash(Replay(0, 1, 2.0), 1));
    es := es + [Crash(Replay(0, 1, 2.0), 1)];
  }

  lemma TearFirst(s: System)
    requires Graveyard(s, 1)
    ensures var e := Crash(Replay(0, 1, 2.0), 1);
      && Enabled(s, e) && Step(s, e).h.issued == s.h.issued && 0 in Step(s, e).h.lost
      && 0 !in Step(s, e).b.store.tasks && 0 !in Step(s, e).b.store.dlq
      && Step(s, e).h.replayed == map[] && Step(s, e).h.purged == {}
  {
    assert 0 in s.h.issued && 0 in s.b.store.dlq;
    assert Fates(s.b.store, s.h, 0) == 1;
    assert 1 !in s.h.issued;
    assert |Commits(s.b, Replay(0, 1, 2.0))| == 2;
    assert Unanswered(s, Replay(0, 1, 2.0), 1) == Torn(s, 0);
  }

  // ------------------------------------------------------------ taken but not answered

  /** The broker dies after saving a produced task and before answering: the task is kept, the producer never told. */
  lemma TakenUnanswered() returns (es: seq<Event>)
    ensures Legal(Initial(MAX_RETRIES), es)
    ensures var s := Run(Initial(MAX_RETRIES), es); 0 in s.h.issued && Live(s.b.store, 0) && 0 !in s.h.accepted
  {
    var e := Crash(Produce(Q, P, 0, 0.0), 1);
    assert Enabled(Initial(MAX_RETRIES), e);
    RunAppend(Initial(MAX_RETRIES), [], e);
    es := [] + [e];
  }

  // -------------------------------------------------------------------- tasks adrift

  lemma ConsumeFirst(s: System, w: WorkerId)
    requires Wf(s) && Q in s.b.mgr.queues && s.b.mgr.queues[Q] == [0]
    ensures var s' := Serve(s, Consume(Q, w));
      0 in s'.b.mgr.inFlight && s'.b.reg == Registry.Assign(s.b.reg, w, 0)
  {
  }

  lemma ProduceFirst(s: System)
    requires Wf(s) && s.up && s.b.mgr == Empty(MAX_RETRIES) && s.h.issued == map[]
    ensures Enabled(s, Birth(0))
    ensures var s' := Step(s, Birth(0));
      s'.up && Q in s'.b.mgr.queues && s'.b.mgr.queues[Q] == [0] && s'.b.reg == s.b.reg
  {
  }

  /** A task handed to a worker that never registered is adrift. */
  lemma UnregisteredConsumer(w: WorkerId) returns (es: seq<Event>)
    ensures Legal(Initial(MAX_RETRIES), es) && Run(Initial(MAX_RETRIES), es).up && Adrift(Run(Initial(MAX_RETRIES), es).b, 0)
  {
    var s0 := Initial(MAX_RETRIES);
    ProduceFirst(s0);
    RunAppend(s0, [], Birth(0));
    es := [] + [Birth(0)];
    ConsumeFirst(Run(s0, es), w);
    RunAppend(s0, es, Do(Consume(Q, w)));
    es := es + [Do(Consume(Q, w))];
  }

  /** A task whose worker registers again is adrift. */
  lemma RegisteredTwice(w: WorkerId) returns (es: seq<Event>)
    ensures Legal(Initial(MAX_RETRIES), es) && Run(Initial(MAX_RETRIES), es).up && Adrift(Run(Initial(MAX_RETRIES), es).b, 0)
  {
    var s0 := Initial(MAX_RETRIES);
    RunAppend(s0, [], Do(Join(w, 0.0)));
    es := [] + [Do(Join(w, 0.0))];
    ProduceFirst(Run(s0, es));
    RunAppend(s0, es, Birth(0));
    es := es + [Birth(0)];
    ConsumeFirst(Run(s0, es), w);
    RunAppend(s0, es, Do(Consume(Q, w)));
    es := es + [Do(Consume(Q, w))];
    RunAppend(s0, es, Do(Join(w, 1.0)));
    es := es + [Do(Join(w, 1.0))];
  }

  // ------------------------------------------------------------------ a stale answer

  lemma NackFirst(s: System, w: WorkerId)
    requires Wf(s) && s.b.mgr.inFlight == {0} && s.b.mgr.tasks[0].queue == Q && s.b.mgr.tasks[0].attempts == 1
    requires Q in s.b.mgr.queues && s.b.mgr.queues[Q] == [] && s.b.mgr.maxRetries == MAX_RETRIES
    ensures var s' := Serve(s, Nack(0, w));
      && s'.up == s.up && s'.b.reg == Registry.Complete(s.b.reg, w, 0) && s'.b.mgr.inFlight == {}
      && Q in s'.b.mgr.queues && s'.b.mgr.queues[Q] == [0]
  {
    NackBack(s.b.mgr, 0);
    NackWrites(s.b.mgr, 0);
  }

  lemma ConsumeAlone(s: System, w: WorkerId)
    requires Wf(s) && Q in s.b.mgr.queues && s.b.mgr.queues[Q] == [0] && s.b.mgr.inFlight == {}
    ensures var s' := Serve(s, Consume(Q, w));
      && s'.up == s.up && s'.b.reg == Registry.Assign(s.b.reg, w, 0) && s'.b.mgr.inFlight == {0} && 0 in s.b.mgr.tasks
      && s'.b.mgr.queues == s.b.mgr.queues[Q := []] && s'.b.mgr.maxRetries == s.b.mgr.maxRetries
      && s'.b.mgr.tasks[0] == Deliver(s.b.mgr.tasks[0], w)
  {
    assert 0 in s.b.mgr.queues[Q];
  }

  lemma ProduceAlone(s: System)
    requires Wf(s) && s.up && s.b.mgr == Empty(MAX_RETRIES) && s.h.issued == map[]
    ensures var s' := Step(s, Birth(0));
      && s'.up && s'.b.reg == s.b.reg && Q in s'.b.mgr.queues && s'.b.mgr.queues[Q] == [0] && s'.b.mgr.inFlight == {}
      && s'.b.mgr.maxRetries == MAX_RETRIES && 0 in s'.b.mgr.tasks && s'.b.mgr.tasks[0] == NewTask(0, Q, P, 0.0, 0)
  {
  }

  // The stages of the run, one event after the other.

  ghost predicate Joined(s: System) {
    s.up && s.b.mgr == Empty(MAX_RETRIES) && s.h.issued == map[] && s.b.reg.info == map[1 := WorkerInfo(0.0, {})]
  }

  ghost predicate Queued0(s: System, info: map<WorkerId, WorkerInfo>, attempts: nat) {
    && s.up && s.b.mgr.inFlight == {} && Q in s.b.mgr.queues && s.b.mgr.queues[Q] == [0] && s.b.reg.info == info
    && s.b.mgr.maxRetries == MAX_RETRIES && 0 in s.b.mgr.tasks
    && s.b.mgr.tasks[0].queue == Q && s.b.mgr.tasks[0].attempts == attempts
  }

  ghost predicate Taken0(s: System, info: map<WorkerId, WorkerInfo>, attempts: nat, w: WorkerId) {
    && s.up && s.b.mgr.inFlight == {0} && Q in s.b.mgr.queues && s.b.mgr.queues[Q] == [] && s.b.reg.info == info
    && s.b.mgr.maxRetries == MAX_RETRIES && 0 in s.b.mgr.tasks
    && s.b.mgr.tasks[0].queue == Q && s.b.mgr.tasks[0].attempts == attempts && s.b.mgr.tasks[0].worker == Some(w)
  }

  lemma StageJoin() returns (es: seq<Event>)
    ensures Legal(Initial(MAX_RETRIES), es) && Joined(Run(Initial(MAX_RETRIES), es))
  {
    RunAppend(Initial(MAX_RETRIES), [], Do(Join(1, 0.0)));
    es := [] + [Do(Join(1, 0.0))];
  }

  lemma StageProduce(es: seq<Event>) returns (es': seq<Event>)
    requires Legal(Initial(MAX_RETRIES), es) && Joined(Run(Initial(MAX_RETRIES), es))
    ensures Legal(Initial(MAX_RETRIES), es') && Queued0(Run(Initial(MAX_RETRIES), es'), map[1 := WorkerInfo(0.0, {})], 0)
  {
    ProduceAlone(Run(Initial(MAX_RETRIES), es));
    RunAppend(Initial(MAX_RETRIES), es, Birth(0));
    es' := es + [Birth(0)];
  }

  lemma StageTake(es: seq<Event>, info: map<WorkerId, WorkerInfo>, info': map<WorkerId, WorkerInfo>, attempts: nat, w: WorkerId)
    returns (es': seq<Event>)
    requires Legal(Initial(MAX_RETRIES), es) && Queued0(Run(Initial(MAX_RETRIES), es), info, attempts)
    requires w in info && info' == info[w := info[w].(tracked := info[w].tracked + {0})]
    ensures Legal(Initial(MAX_RETRIES), es') && Taken0(Run(Initial(MAX_RETRIES), es'), info', attempts + 1, w)
  {
    ConsumeAlone(Run(Initial(MAX_RETRIES), es), w);
    RunAppend(Initial(MAX_RETRIES), es, Do(Consume(Q, w)));
    es' := es + [Do(Consume(Q, w))];
  }

  /** Somebody the registry does not know answers for the task. */
  lemma StageStranger(es: seq<Event>, info: map<WorkerId, WorkerInfo>, w: WorkerId) returns (es': seq<Event>)
    requires Legal(Initial(MAX_RETRIES), es) && Taken0(Run(Initial(MAX_RETRIES), es), info, 1, w) && 9 !in info
    ensures Legal(Initial(MAX_RETRIES), es') && Queued0(Run(Initial(MAX_RETRIES), es'), info, 1)
  {
    NackFirst(Run(Initial(MAX_RETRIES), es), 9);
    RunAppend(Initial(MAX_RETRIES), es, Do(Nack(0, 9)));
    es' := es + [Do(Nack(0, 9))];
  }

  lemma StageSecondWorker(es: seq<Event>, info: map<WorkerId, WorkerInfo>) returns (es': seq<Event>)
    requires Legal(Initial(MAX_RETRIES), es) && Queued0(Run(Initial(MAX_RETRIES), es), info, 1)
    ensures Legal(Initial(MAX_RETRIES), es') && Queued0(Run(Initial(MAX_RETRIES), es'), info[2 := WorkerInfo(5.0, {})], 1)
  {
    RunAppend(Initial(MAX_RETRIES), es, Do(Join(2, 5.0)));
    es' := es + [Do(Join(2, 5.0))];
  }

  function NoHolder(): map<WorkerId, WorkerInfo> { map[1 := WorkerInfo(0.0, {})] }

  function OneHolder(): map<WorkerId, WorkerInfo> { map[1 := WorkerInfo(0.0, {0})] }

  function NewWorker(): map<WorkerId, WorkerInfo> { map[1 := WorkerInfo(0.0, {0}), 2 := WorkerInfo(5.0, {})] }

  function TwoHolders(): map<WorkerId, WorkerInfo> { map[1 := WorkerInfo(0.0, {0}), 2 := WorkerInfo(5.0, {0})] }

  lemma Takes()
    ensures 1 in NoHolder() && OneHolder() == NoHolder()[1 := NoHolder()[1].(tracked := NoHolder()[1].tracked + {0})]
    ensures NewWorker() == OneHolder()[2 := WorkerInfo(5.0, {})]
    ensures 2 in NewWorker() && TwoHolders() == NewWorker()[2 := NewWorker()[2].(tracked := NewWorker()[2].tracked + {0})]
  {
    var none: set<TaskId> := {};
    assert none + {0} == {0};
  }

  lemma Available() returns (es: seq<Event>)
    ensures Legal(Initial(MAX_RETRIES), es) && Queued0(Run(Initial(MAX_RETRIES), es), NoHolder(), 0)
  {
    var joined := StageJoin();
    es := StageProduce(joined);
  }

  lemma HandedOnce() returns (es: seq<Event>)
    ensures Legal(Initial(MAX_RETRIES), es) && Taken0(Run(Initial(MAX_RETRIES), es), OneHolder(), 1, 1)
  {
    var queued := Available();
    Takes();
    es := StageTake(queued, NoHolder(), OneHolder(), 0, 1);
  }

  lemma Disowned() returns (es: seq<Event>)
    ensures Legal(Initial(MAX_RETRIES), es) && Queued0(Run(Initial(MAX_RETRIES), es), OneHolder(), 1)
  {
    var taken := HandedOnce();
    es := StageStranger(taken, OneHolder(), 1);
  }

  lemma SecondWorker() returns (es: seq<Event>)
    ensures Legal(Initial(MAX_RETRIES), es) && Queued0(Run(Initial(MAX_RETRIES), es), NewWorker(), 1)
  {
    var back := Disowned();
    Takes();
    es := StageSecondWorker(back, OneHolder());
  }

  lemma HandedTwice() returns (es: seq<Event>)
    ensures Legal(Initial(MAX_RETRIES), es) && Taken0(Run(Initial(MAX_RETRIES), es), TwoHolders(), 2, 2)
  {
    var second := SecondWorker();
    Takes();
    es := StageTake(second, NewWorker(), TwoHolders(), 1, 2);
  }

  /**
   Worker 1 took the task, a stranger answered for it, and worker 2, alive and well, took it next. The pass that
   evicts worker 1 takes it away from worker 2, because worker 1 still tracks it.
   */
  lemma TakenFromTheLiving() returns (es: seq<Event>, now: real, ids: seq<TaskId>)
    ensures Legal(Initial(MAX_RETRIES), es) && Enabled(Run(Initial(MAX_RETRIES), es), Do(Tick(now, ids)))
    ensures var b := Run(Initial(MAX_RETRIES), es).b;
      && 0 in b.mgr.inFlight && 0 in b.mgr.tasks && b.mgr.tasks[0].worker == Some(2)
      && 2 in b.reg.info && now - b.reg.info[2].lastHeartbeat <= 6.0
      && 0 !in DoTick(b, now, ids).mgr.inFlight
  {
    es := HandedTwice();
    now, ids := 7.0, [0];
    StolenBy(Run(Initial(MAX_RETRIES), es).b);
  }

  lemma StolenBy(b: Broker)
    requires Valid(b.mgr) && b.mgr.inFlight == {0} && b.reg.info == TwoHolders()
    ensures Elems([0]) == Orphans(b.reg, 7.0) && 0 !in DoTick(b, 7.0, [0]).mgr.inFlight
  {
    assert Registry.Dead(b.reg, 7.0) == {1};
    RequeueAllWrites(b.mgr, [0]);
  }
}
