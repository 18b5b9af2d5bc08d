/**
 Draining: with no new tasks, evictions or replays, workers that keep consuming and
 answering ACK or NACK run out of work after a bounded number of deliveries.
 */
module Drain {
  import opened Tasks
  import opened Queues
  import opened Lifecycle

  datatype Move =
    | Take(queue: QueueName, worker: WorkerId)   // CONSUME that returns a task
    | Finish(id: TaskId)                         // ACK
    | Fail(id: TaskId)                           // NACK

  /** No coroutine is between two critical sections. */
  ghost predicate Settled(s: System) {
    Inv(s) && s.held == []
  }

  /** The move does something: it delivers a task, or answers for one in flight. */
  predicate Effective(s: System, m: Move)
    requires Wf(s)
  {
    match m
    case Take(n, w) => Source(s.q, n).Some?
    case Finish(id) => id in s.q.inFlight
    case Fail(id) => id in s.q.inFlight
  }

  function Act(s: System, m: Move): (r: System)
    requires Wf(s) && s.held == []
    ensures Wf(r) && r.held == []
  {
    match m
    case Take(n, w) => Step(s, Consume(n, w))
    case Finish(id) => Step(s, Ack(id))
    case Fail(id) => s.(q := Nack(s.q, id))
  }

  /** A NACK that nothing interrupts is its two critical sections in a row. */
  lemma FailIsTwoSections(s: System, id: TaskId)
    requires Wf(s) && s.held == [] && id in s.q.inFlight
    ensures Enabled(Step(s, NackFirst(id)), Second(0))
    ensures Act(s, Fail(id)) == Step(Step(s, NackFirst(id)), Second(0))
  {
    var s1 := Step(s, NackFirst(id));
    assert s1.held == [NackTake(s.q, id).1.value];
    assert RemoveAt(s1.held, 0) == [];
  }

  ghost predicate Schedule(s: System, ms: seq<Move>)
    requires Wf(s) && s.held == []
    decreases |ms|
  {
    ms == [] || (Effective(s, ms[0]) && Schedule(Act(s, ms[0]), ms[1..]))
  }

  ghost function After(s: System, ms: seq<Move>): (r: System)
    requires Wf(s) && s.held == []
    ensures Wf(r) && r.held == []
    decreases |ms|
  {
    if ms == [] then s else After(Act(s, ms[0]), ms[1..])
  }

  function Deliveries(ms: seq<Move>): nat {
    if ms == [] then 0 else Bit(ms[0].Take?) + Deliveries(ms[1..])
  }

  lemma ActSettled(s: System, m: Move)
    requires Settled(s)
    ensures Settled(Act(s, m))
  {
    match m
    case Take(n, w) => StepKeepsInv(s, Consume(n, w));
    case Finish(id) => StepKeepsInv(s, Ack(id));
    case Fail(id) =>
      if id in s.q.inFlight {
        FailIsTwoSections(s, id);
        StepKeepsInv(s, NackFirst(id));
        StepKeepsInv(Step(s, NackFirst(id)), Second(0));
      }
  }

  // ------------------------------------------------------------- potential

  function Live(t: TaskRecord): bool {
    t.status == Pending || t.status == InFlight
  }

  function AtLeast(low: nat, n: int): nat {
    if n < low then low else n
  }

  /** Deliveries a task can still absorb before its next failure is final. */
  function Remaining(t: TaskRecord, maxRetries: int): nat {
    match t.status
    case Pending => AtLeast(1, maxRetries - t.attempts)
    case InFlight => AtLeast(0, maxRetries - t.attempts)
    case _ => 0
  }

  /** The advertised bound per live task. */
  function Allowance(t: TaskRecord, maxRetries: int): nat {
    if Live(t) then AtLeast(1, maxRetries - t.attempts) else 0
  }

  ghost function Sum(ids: set<TaskId>, f: map<TaskId, nat>): nat
    requires ids <= f.Keys
  {
    if ids == {} then 0 else var id :| id in ids; f[id] + Sum(ids - {id}, f)
  }

  lemma {:induction false} SumSplit(ids: set<TaskId>, f: map<TaskId, nat>, x: TaskId)
    requires ids <= f.Keys && x in ids
    ensures Sum(ids, f) == f[x] + Sum(ids - {x}, f)
    decreases ids
  {
    var id :| id in ids && Sum(ids, f) == f[id] + Sum(ids - {id}, f);
    if id != x {
      SumSplit(ids - {id}, f, x);
      SumSplit(ids - {x}, f, id);
      assert ids - {id} - {x} == ids - {x} - {id};
    }
  }

  lemma {:induction false} SumMonotone(ids: set<TaskId>, f: map<TaskId, nat>, g: map<TaskId, nat>)
    requires ids <= f.Keys && ids <= g.Keys
    requires forall id :: id in ids ==> f[id] <= g[id]
    ensures Sum(ids, f) <= Sum(ids, g)
    decreases ids
  {
    if ids != {} {
      var id :| id in ids;
      SumSplit(ids, f, id);
      SumSplit(ids, g, id);
      SumMonotone(ids - {id}, f, g);
    }
  }

  lemma SumPoint(ids: set<TaskId>, f: map<TaskId, nat>, g: map<TaskId, nat>, x: TaskId)
    requires ids <= f.Keys && ids <= g.Keys && x in ids
    requires forall id :: id in ids && id != x ==> f[id] == g[id]
    ensures Sum(ids, g) + f[x] == Sum(ids, f) + g[x]
  {
    SumSplit(ids, f, x);
    SumSplit(ids, g, x);
    SumMonotone(ids - {x}, f, g);
    SumMonotone(ids - {x}, g, f);
  }

  function RemainingOf(q: QueueState): map<TaskId, nat> {
    map id | id in q.tasks :: Remaining(q.tasks[id], q.maxRetries)
  }

  ghost function Potential(s: System): nat {
    Sum(s.q.tasks.Keys, RemainingOf(s.q))
  }

  ghost function Bound(s: System): nat {
    Sum(s.q.tasks.Keys, map id | id in s.q.tasks :: Allowance(s.q.tasks[id], s.q.maxRetries))
  }

  lemma PotentialWithinBound(s: System)
    ensures Potential(s) <= Bound(s)
  {
    SumMonotone(s.q.tasks.Keys, RemainingOf(s.q),
                map id | id in s.q.tasks :: Allowance(s.q.tasks[id], s.q.maxRetries));
  }

  /** Rewriting one task record moves the potential by that record's share. */
  lemma PotentialWrite(s: System, r: System, t: TaskRecord)
    requires t.id in s.q.tasks && r.q.tasks == s.q.tasks[t.id := t] && r.q.maxRetries == s.q.maxRetries
    ensures Potential(r) + Remaining(s.q.tasks[t.id], s.q.maxRetries) == Potential(s) + Remaining(t, s.q.maxRetries)
  {
    assert r.q.tasks.Keys == s.q.tasks.Keys;
    SumPoint(s.q.tasks.Keys, RemainingOf(s.q), RemainingOf(r.q), t.id);
  }

  lemma TakeEffect(s: System, n: QueueName, w: WorkerId)
    requires Settled(s) && Effective(s, Take(n, w))
    ensures var r := Act(s, Take(n, w));
      && Potential(r) + 1 == Potential(s)
      && |r.q.inFlight| == |s.q.inFlight| + 1
  {
    var id := s.q.queues[Source(s.q, n).value][0];
    TakenWrites(s, n, w);
    PotentialWrite(s, Act(s, Take(n, w)), Queues.Deliver(s.q.tasks[id], w));
  }

  lemma TakenWrites(s: System, n: QueueName, w: WorkerId)
    requires Settled(s) && Effective(s, Take(n, w))
    ensures var id, r := s.q.queues[Source(s.q, n).value][0], Act(s, Take(n, w));
      && id in s.q.tasks && s.q.tasks[id].id == id && s.q.tasks[id].status == Pending && id !in s.q.inFlight
      && r.q.tasks == s.q.tasks[id := Queues.Deliver(s.q.tasks[id], w)] && r.q.inFlight == s.q.inFlight + {id}
      && r.q.maxRetries == s.q.maxRetries
  {
    var id := s.q.queues[Source(s.q, n).value][0];
    HeadCounts(s.q, Source(s.q, n).value);
    assert Good(s, id);
    PopCopies(s, n, w, id);
  }

  lemma FinishEffect(s: System, id: TaskId)
    requires Settled(s) && Effective(s, Finish(id))
    ensures var r := Act(s, Finish(id));
      && Potential(r) <= Potential(s)
      && |r.q.inFlight| == |s.q.inFlight| - 1
  {
    PotentialWrite(s, Act(s, Finish(id)), s.q.tasks[id].(status := Done));
  }

  lemma FailEffect(s: System, id: TaskId)
    requires Wf(s) && s.held == [] && id in s.q.inFlight && s.q.tasks[id].status == InFlight
    ensures var r := Act(s, Fail(id));
      && Potential(r) <= Potential(s)
      && |r.q.inFlight| == |s.q.inFlight| - 1
  {
    NackWrites(s.q, id);
    PotentialWrite(s, Act(s, Fail(id)), Failed(s.q, id));
  }

  lemma {:induction false} ScheduleBound(s: System, ms: seq<Move>)
    requires Settled(s) && Schedule(s, ms)
    ensures Settled(After(s, ms))
    ensures Potential(After(s, ms)) + Deliveries(ms) <= Potential(s)
    ensures |ms| + |After(s, ms).q.inFlight| == |s.q.inFlight| + 2 * Deliveries(ms)
    decreases |ms|
  {
    if ms != [] {
      var m := ms[0];
      match m {
        case Take(n, w) => TakeEffect(s, n, w);
        case Finish(id) => FinishEffect(s, id);
        case Fail(id) =>
          assert Good(s, id);
          FailEffect(s, id);
      }
      ActSettled(s, m);
      ScheduleBound(Act(s, m), ms[1..]);
    }
  }

  /** Deliveries never exceed the summed allowance of the live tasks, and every move counts towards the end. */
  lemma DeliveriesBounded(s: System, ms: seq<Move>)
    requires Settled(s) && Schedule(s, ms)
    ensures Deliveries(ms) <= Bound(s)
    ensures |ms| <= |s.q.inFlight| + 2 * Bound(s)
  {
    ScheduleBound(s, ms);
    PotentialWithinBound(s);
  }

  // ------------------------------------------------------------ completion

  /** While any task is live, some consumer or some answer can make a move. */
  lemma ProgressPossible(s: System, id: TaskId) returns (m: Move)
    requires Settled(s) && id in s.q.tasks && Live(s.q.tasks[id])
    ensures Effective(s, m)
  {
    assert Good(s, id);
    assert HeldIds(s.held) == [];
    if id in s.q.inFlight {
      m := Finish(id);
    } else {
      var n := s.q.tasks[id].queue;
      assert QueueCopies(s.q, id) == 1;
      assert s.q.queues[n] != [];
      if n != WILDCARD {
        m := Take(n, 0);
      } else {
        var f := FirstNonEmpty(s.q.names, s.q.queues);
        m := if f.value == "" then Take("", 0) else Take(WILDCARD, 0);
      }
    }
  }

  lemma ActKeepsTasks(s: System, m: Move)
    requires Settled(s)
    ensures Act(s, m).q.tasks.Keys == s.q.tasks.Keys && Act(s, m).discarded == s.discarded
  {
    if m.Fail? && m.id in s.q.inFlight {
      NackWrites(s.q, m.id);
    }
  }

  lemma {:induction false} AfterKeepsTasks(s: System, ms: seq<Move>)
    requires Settled(s)
    ensures After(s, ms).q.tasks.Keys == s.q.tasks.Keys && After(s, ms).discarded == s.discarded
    decreases |ms|
  {
    if ms != [] {
      ActKeepsTasks(s, ms[0]);
      ActSettled(s, ms[0]);
      AfterKeepsTasks(Act(s, ms[0]), ms[1..]);
    }
  }

  /** A schedule that can go no further leaves every queue empty and every task it found
      completed or dead-lettered. */
  lemma DrainCompletes(s: System, ms: seq<Move>)
    requires Settled(s) && Schedule(s, ms)
    requires forall m :: !Effective(After(s, ms), m)
    ensures var r := After(s, ms);
      && r.q.inFlight == {}
      && (forall n :: n in r.q.queues ==> r.q.queues[n] == [])
      && (forall id :: id in s.q.tasks && id !in s.discarded ==> id in r.q.completed || id in r.q.dlq)
  {
    ScheduleBound(s, ms);
    AfterKeepsTasks(s, ms);
    var r := After(s, ms);
    forall id | id in r.q.tasks ensures !Live(r.q.tasks[id]) {
      if Live(r.q.tasks[id]) {
        var _ := ProgressPossible(r, id);
      }
    }
    forall id | id in r.q.tasks ensures id !in r.q.inFlight && QueueCopies(r.q, id) == 0 {
      assert Good(r, id);
    }
    forall n | n in r.q.queues ensures r.q.queues[n] == [] {
      if r.q.queues[n] != [] {
        HeadCounts(r.q, n);
      }
    }
    forall id | id in s.q.tasks && id !in s.discarded ensures id in r.q.completed || id in r.q.dlq {
      assert Good(r, id);
      assert HeldIds(r.held) == [];
    }
  }
}
