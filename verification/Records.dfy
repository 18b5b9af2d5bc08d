/**
 What the stored columns mean over every run: the worker column names the last worker the task was handed to,
 and the attempts of finished and dead tasks count every delivery they had.
 */
module Records {
  import opened Tasks
  import opened Queues
  import opened WalStore
  import opened Handlers
  import opened Runs
  import opened Placement
  import opened Agreement
  import opened Durability
  import opened Recovery
  import opened CrashSafety

  // -------------------------------------------------------------- who took it last

  /** Last taker of each task; tasks never handed out are missing. */
  type Takers = map<TaskId, WorkerId>

  function TakerOf(takers: Takers, id: TaskId): Option<WorkerId> {
    if id in takers then Some(takers[id]) else None
  }

  function TakenBy(b: Broker, r: Request, takers: Takers): Takers
    requires Valid(b.mgr)
  {
    if r.Consume? && Delivery(b, r.queue, r.worker).Some? then takers[Delivery(b, r.queue, r.worker).value := r.worker]
    else takers
  }

  /** A delivery counts once its commit is made, whether or not the worker heard of it. */
  function TakenIn(s: System, e: Event, takers: Takers): Takers
    requires Wf(s)
  {
    match e
    case Do(r) => TakenBy(s.b, r, takers)
    case Crash(r, k) => if k > 0 then TakenBy(s.b, r, takers) else takers
    case Recover(_, _, _) => takers
  }

  ghost function LastTakers(s: System, es: seq<Event>, takers: Takers): Takers
    requires Wf(s) && Legal(s, es)
    decreases |es|
  {
    if es == [] then takers else LastTakers(Step(s, es[0]), es[1..], TakenIn(s, es[0], takers))
  }

  // --------------------------------------------------------------------- invariant

  function Deliveries(h: History, id: TaskId): nat { Count(h.nacks, id) + Count(h.bumps, id) + 1 }

  predicate RecordOn(st: Tables, h: History, takers: Takers, maxRetries: int, id: TaskId) {
    && (id in st.tasks ==> st.tasks[id].worker == TakerOf(takers, id))
    && (id in st.tasks && st.tasks[id].status == Done ==> st.tasks[id].attempts == Deliveries(h, id))
    && (id in st.dlq ==> st.dlq[id].attempts == Deliveries(h, id) && st.dlq[id].attempts >= maxRetries)
  }

  predicate HeldOn(b: Broker, id: TaskId) {
    id in b.mgr.inFlight ==> id in b.mgr.tasks && id in b.store.tasks && b.mgr.tasks[id].worker == b.store.tasks[id].worker
  }

  ghost predicate Recorded(st: Tables, h: History, takers: Takers, maxRetries: int) {
    takers.Keys <= h.issued.Keys && forall id :: RecordOn(st, h, takers, maxRetries, id)
  }

  ghost predicate RecordInv(s: System, takers: Takers, maxRetries: int) {
    && s.b.mgr.maxRetries == maxRetries
    && Recorded(s.b.store, s.h, takers, maxRetries)
    && (s.up ==> forall id :: HeldOn(s.b, id))
  }

  /** Only the counts, and which tasks were issued, matter of the history. */
  lemma RecordHistory(st: Tables, h: History, h': History, takers: Takers, maxRetries: int)
    requires Recorded(st, h, takers, maxRetries) && h.issued.Keys <= h'.issued.Keys
    requires h'.nacks == h.nacks && h'.bumps == h.bumps
    ensures Recorded(st, h', takers, maxRetries)
  {
    forall id ensures RecordOn(st, h', takers, maxRetries, id) {
      assert RecordOn(st, h, takers, maxRetries, id);
    }
  }

  /** Counting a requeue of tasks that are still to be done disturbs no record. */
  lemma RecordBumped(st: Tables, h: History, h': History, takers: Takers, maxRetries: int)
    requires Recorded(st, h, takers, maxRetries) && h'.issued == h.issued
    requires forall id :: (Live(st, id) && id !in st.dlq) || Deliveries(h', id) == Deliveries(h, id)
    ensures Recorded(st, h', takers, maxRetries)
  {
    forall id ensures RecordOn(st, h', takers, maxRetries, id) {
      assert RecordOn(st, h, takers, maxRetries, id);
    }
  }

  lemma FewerDead(st: Tables, h: History, takers: Takers, maxRetries: int, st': Tables)
    requires Recorded(st, h, takers, maxRetries) && st'.tasks == st.tasks
    requires forall id :: id in st'.dlq ==> id in st.dlq && st'.dlq[id] == st.dlq[id]
    ensures Recorded(st', h, takers, maxRetries)
  {
    forall id ensures RecordOn(st', h, takers, maxRetries, id) {
      assert RecordOn(st, h, takers, maxRetries, id);
    }
  }

  lemma InFlightIsLive(b: Broker, h: History, id: TaskId)
    requires MemoryInv(b, h) && StoreInv(b.store, h) && id in b.mgr.inFlight
    ensures Live(b.store, id) && id !in b.store.dlq
  {
    StatusIsPlace(b.mgr, id);
    assert AgreeOn(b.mgr, b.store, id);
    assert Fates(b.store, h, id) <= 1;
  }

  // ------------------------------------------------------------------------- steps

  lemma IssueRecorded(st: Tables, h: History, h': History, takers: Takers, maxRetries: int, t: TaskRecord)
    requires Recorded(st, h, takers, maxRetries) && t.id !in h.issued && t.worker == None && t.status == Pending
    requires h.issued.Keys <= h'.issued.Keys && h'.nacks == h.nacks && h'.bumps == h.bumps
    ensures Recorded(SaveTask(st, t), h', takers, maxRetries)
  {
    forall id ensures RecordOn(SaveTask(st, t), h', takers, maxRetries, id) {
      assert RecordOn(st, h, takers, maxRetries, id);
    }
  }

  lemma ConsumeRecorded(b: Broker, h: History, takers: Takers, maxRetries: int, n: QueueName, w: WorkerId)
    requires MemoryInv(b, h) && Recorded(b.store, h, takers, maxRetries) && Delivery(b, n, w).Some?
    ensures Recorded(DoConsume(b, n, w).store, h, TakenBy(b, Consume(n, w), takers), maxRetries)
  {
    ConsumeDelta(b, n, w);
    var takers' := TakenBy(b, Consume(n, w), takers);
    forall id ensures RecordOn(DoConsume(b, n, w).store, h, takers', maxRetries, id) {
      assert RecordOn(b.store, h, takers, maxRetries, id);
    }
  }

  lemma ConsumeHeldOn(b: Broker, n: QueueName, w: WorkerId, id: TaskId)
    requires Placed(b.mgr) && Agree(b.mgr, b.store) && HeldOn(b, id)
    ensures HeldOn(DoConsume(b, n, w), id)
  {
    if Delivery(b, n, w).Some? {
      ConsumeDelta(b, n, w);
    } else {
      DequeueWrites(b.mgr, n, w);
    }
  }

  lemma AckRecorded(b: Broker, h: History, takers: Takers, maxRetries: int, id: TaskId, w: WorkerId)
    requires MemoryInv(b, h) && Budget(b, h) && Recorded(b.store, h, takers, maxRetries) && id in b.mgr.inFlight
    ensures Recorded(DoAck(b, id, w).store, h.(acked := h.acked + {id}), takers, maxRetries)
  {
    AckAgree(b, id, w);
    assert BudgetOn(b.store, b.mgr.inFlight, h, id);
    forall x ensures RecordOn(DoAck(b, id, w).store, h.(acked := h.acked + {id}), takers, maxRetries, x) {
      assert RecordOn(b.store, h, takers, maxRetries, x);
    }
  }

  lemma DeathRecorded(b: Broker, h: History, takers: Takers, id: TaskId, w: WorkerId, x: TaskId)
    requires MemoryInv(b, h) && Budget(b, h) && id in b.mgr.inFlight && Exhausted(b.mgr, id)
    requires RecordOn(b.store, h, takers, b.mgr.maxRetries, x)
    ensures RecordOn(DoNack(b, id, w).store, h, takers, b.mgr.maxRetries, x)
  {
    NackDelta(b, id, w);
    assert AgreeOn(b.mgr, b.store, id) && BudgetOn(b.store, b.mgr.inFlight, h, id);
  }

  lemma RetryRecorded(b: Broker, h: History, takers: Takers, id: TaskId, w: WorkerId, x: TaskId)
    requires MemoryInv(b, h) && StoreInv(b.store, h) && id in b.mgr.inFlight && !Exhausted(b.mgr, id)
    requires RecordOn(b.store, h, takers, b.mgr.maxRetries, x)
    ensures RecordOn(DoNack(b, id, w).store, h.(nacks := Bump(h.nacks, {id})), takers, b.mgr.maxRetries, x)
  {
    NackDelta(b, id, w);
    InFlightIsLive(b, h, id);
    RequeuedRecord(b.store, h, takers, b.mgr.maxRetries, id, x);
  }

  lemma RequeuedRecord(st: Tables, h: History, takers: Takers, maxRetries: int, id: TaskId, x: TaskId)
    requires Live(st, id) && id !in st.dlq && RecordOn(st, h, takers, maxRetries, x)
    ensures RecordOn(st.(tasks := st.tasks[id := st.tasks[id].(status := Pending)]), h.(nacks := Bump(h.nacks, {id})),
                     takers, maxRetries, x)
  {
  }

  lemma NackNotes(b: Broker, h: History, id: TaskId, w: WorkerId)
    requires Valid(b.mgr) && id in b.mgr.inFlight
    ensures Note(b, h, Nack(id, w)) == if Exhausted(b.mgr, id) then h else h.(nacks := Bump(h.nacks, {id}))
  {
  }

  lemma NackRecordOn(b: Broker, h: History, takers: Takers, id: TaskId, w: WorkerId, x: TaskId)
    requires MemoryInv(b, h) && StoreInv(b.store, h) && Budget(b, h) && id in b.mgr.inFlight
    requires RecordOn(b.store, h, takers, b.mgr.maxRetries, x)
    ensures RecordOn(DoNack(b, id, w).store, Note(b, h, Nack(id, w)), takers, b.mgr.maxRetries, x)
  {
    NackNotes(b, h, id, w);
    if Exhausted(b.mgr, id) {
      DeathRecorded(b, h, takers, id, w, x);
    } else {
      RetryRecorded(b, h, takers, id, w, x);
    }
  }

  lemma NackRecorded(b: Broker, h: History, takers: Takers, id: TaskId, w: WorkerId)
    requires MemoryInv(b, h) && StoreInv(b.store, h) && Budget(b, h) && id in b.mgr.inFlight
    requires Recorded(b.store, h, takers, b.mgr.maxRetries)
    ensures Recorded(DoNack(b, id, w).store, Note(b, h, Nack(id, w)), takers, b.mgr.maxRetries)
  {
    NackNotes(b, h, id, w);
    forall x ensures RecordOn(DoNack(b, id, w).store, Note(b, h, Nack(id, w)), takers, b.mgr.maxRetries, x) {
      assert RecordOn(b.store, h, takers, b.mgr.maxRetries, x);
      NackRecordOn(b, h, takers, id, w, x);
    }
  }

  lemma AnswerHeldOn(b: Broker, r: Request, x: TaskId)
    requires Placed(b.mgr) && Agree(b.mgr, b.store) && (r.Ack? || r.Nack?) && HeldOn(b, x)
    ensures HeldOn(Handle(b, r), x)
  {
    if r.id in b.mgr.inFlight {
      if r.Ack? {
        AckAgree(b, r.id, r.worker);
      } else {
        NackDelta(b, r.id, r.worker);
      }
    }
  }

  lemma AnswerRecords(s: System, r: Request, takers: Takers, maxRetries: int)
    requires Inv(s) && s.up && (r.Ack? || r.Nack?) && RecordInv(s, takers, maxRetries)
    ensures Recorded(Handle(s.b, r).store, Note(s.b, s.h, r), takers, maxRetries)
    ensures forall id :: HeldOn(Handle(s.b, r), id)
  {
    if r.id in s.b.mgr.inFlight {
      if r.Ack? {
        AckRecorded(s.b, s.h, takers, maxRetries, r.id, r.worker);
      } else {
        NackRecorded(s.b, s.h, takers, r.id, r.worker);
      }
    }
    forall id ensures HeldOn(Handle(s.b, r), id) {
      assert HeldOn(s.b, id);
      AnswerHeldOn(s.b, r, id);
    }
  }

  lemma TickRecords(s: System, now: real, ids: seq<TaskId>, takers: Takers, maxRetries: int)
    requires Inv(s) && s.up && RecordInv(s, takers, maxRetries)
    ensures Recorded(s.b.store, Note(s.b, s.h, Tick(now, ids)), takers, maxRetries)
    ensures forall id :: HeldOn(DoTick(s.b, now, ids), id)
  {
    var h' := Note(s.b, s.h, Tick(now, ids));
    forall id | id in s.b.mgr.inFlight ensures Live(s.b.store, id) && id !in s.b.store.dlq {
      InFlightIsLive(s.b, s.h, id);
    }
    RecordBumped(s.b.store, s.h, h', takers, maxRetries);
    RequeueAllWrites(s.b.mgr, ids);
    forall id ensures HeldOn(DoTick(s.b, now, ids), id) {
      assert HeldOn(s.b, id);
    }
  }

  lemma IssueHeldOn(b: Broker, t: TaskRecord, st: Tables, id: TaskId)
    requires Valid(b.mgr) && HeldOn(b, id) && t.id !in b.mgr.tasks && st.tasks == b.store.tasks[t.id := RowOf(t)]
    ensures HeldOn(Broker(Add(b.mgr, t), b.reg, st), id)
  {
  }

  lemma ProduceRecords(s: System, r: Request, takers: Takers, maxRetries: int)
    requires Inv(s) && s.up && Allowed(s, r) && r.Produce? && r.queue != "" && RecordInv(s, takers, maxRetries)
    ensures Recorded(Handle(s.b, r).store, Note(s.b, s.h, r), takers, maxRetries)
    ensures forall id :: HeldOn(Handle(s.b, r), id)
  {
    var t := NewTask(r.id, r.queue, r.payload, r.now, 0);
    IssueRecorded(s.b.store, s.h, Note(s.b, s.h, r), takers, maxRetries, t);
    forall id ensures HeldOn(Handle(s.b, r), id) {
      assert HeldOn(s.b, id);
      IssueHeldOn(s.b, t, Handle(s.b, r).store, id);
    }
  }

  lemma ReplayRecords(s: System, r: Request, takers: Takers, maxRetries: int)
    requires Inv(s) && s.up && Allowed(s, r) && r.Replay? && r.id in s.b.store.dlq && RecordInv(s, takers, maxRetries)
    ensures Recorded(Handle(s.b, r).store, Note(s.b, s.h, r), takers, maxRetries)
    ensures forall id :: HeldOn(Handle(s.b, r), id)
  {
    var d := s.b.store.dlq[r.id];
    var t := NewTask(r.newId, d.queue, d.payload, r.now, 0);
    FewerDead(s.b.store, s.h, takers, maxRetries, DropDlq(s.b.store, r.id));
    IssueRecorded(DropDlq(s.b.store, r.id), s.h, Note(s.b, s.h, r), takers, maxRetries, t);
    forall id ensures HeldOn(Handle(s.b, r), id) {
      assert HeldOn(s.b, id);
      IssueHeldOn(s.b, t, Handle(s.b, r).store, id);
    }
  }

  lemma ConsumeRecords(s: System, n: QueueName, w: WorkerId, takers: Takers, maxRetries: int)
    requires Inv(s) && s.up && RecordInv(s, takers, maxRetries)
    ensures Recorded(DoConsume(s.b, n, w).store, s.h, TakenBy(s.b, Consume(n, w), takers), maxRetries)
    ensures forall id :: HeldOn(DoConsume(s.b, n, w), id)
  {
    if Delivery(s.b, n, w).Some? {
      ConsumeRecorded(s.b, s.h, takers, maxRetries, n, w);
    }
    forall id ensures HeldOn(DoConsume(s.b, n, w), id) {
      assert HeldOn(s.b, id);
      ConsumeHeldOn(s.b, n, w, id);
    }
  }

  lemma QuietRecords(s: System, r: Request, takers: Takers, maxRetries: int)
    requires Inv(s) && s.up && (r.Join? || r.Beat? || r.PurgeDlq?) && RecordInv(s, takers, maxRetries)
    ensures Recorded(Handle(s.b, r).store, Note(s.b, s.h, r), takers, maxRetries)
    ensures forall id :: HeldOn(Handle(s.b, r), id)
  {
    FewerDead(s.b.store, s.h, takers, maxRetries, Handle(s.b, r).store);
    RecordHistory(Handle(s.b, r).store, s.h, Note(s.b, s.h, r), takers, maxRetries);
    forall id ensures HeldOn(Handle(s.b, r), id) {
      assert HeldOn(s.b, id);
    }
  }

  lemma ServeRecords(s: System, r: Request, takers: Takers, maxRetries: int)
    requires Inv(s) && s.up && Allowed(s, r) && RecordInv(s, takers, maxRetries)
    ensures RecordInv(Serve(s, r), TakenBy(s.b, r, takers), maxRetries)
  {
    ServeMaxRetries(s, r);
    match r
    case Produce(n, _, _, _) => if n != "" { ProduceRecords(s, r, takers, maxRetries); }
    case Consume(n, w) => ConsumeRecords(s, n, w, takers, maxRetries);
    case Ack(_, _) => AnswerRecords(s, r, takers, maxRetries);
    case Nack(_, _) => AnswerRecords(s, r, takers, maxRetries);
    case Tick(now, ids) => TickRecords(s, now, ids, takers, maxRetries);
    case Replay(id, _, _) => if id in s.b.store.dlq { ReplayRecords(s, r, takers, maxRetries); }
    case Join(_, _) => QuietRecords(s, r, takers, maxRetries);
    case Beat(_, _) => QuietRecords(s, r, takers, maxRetries);
    case PurgeDlq(_) => QuietRecords(s, r, takers, maxRetries);
  }

  // ----------------------------------------------------------- crash and recovery

  lemma FinishedRecords(s: System, r: Request, takers: Takers, maxRetries: int)
    requires Inv(s) && s.up && Allowed(s, r) && RecordInv(s, takers, maxRetries)
    ensures RecordInv(Finished(s, r), TakenBy(s.b, r, takers), maxRetries)
  {
    ServeRecords(s, r, takers, maxRetries);
    RecordHistory(Serve(s, r).b.store, Serve(s, r).h, Finished(s, r).h, TakenBy(s.b, r, takers), maxRetries);
  }

  lemma TornRecords(s: System, id: TaskId, takers: Takers, maxRetries: int)
    requires s.up && RecordInv(s, takers, maxRetries)
    ensures RecordInv(Torn(s, id), takers, maxRetries)
  {
    var s' := Torn(s, id);
    FewerDead(s.b.store, s.h, takers, maxRetries, s'.b.store);
    RecordHistory(s'.b.store, s.h, s'.h, takers, maxRetries);
    forall x ensures HeldOn(s'.b, x) {
      assert HeldOn(s.b, x);
    }
  }

  lemma LostRecords(s: System, takers: Takers, maxRetries: int)
    requires Inv(s) && s.up && RecordInv(s, takers, maxRetries)
    ensures RecordInv(LoseMemory(s), takers, maxRetries)
  {
    forall id | id in s.b.mgr.inFlight ensures Live(s.b.store, id) && id !in s.b.store.dlq {
      InFlightIsLive(s.b, s.h, id);
    }
    RecordBumped(s.b.store, s.h, LoseMemory(s).h, takers, maxRetries);
  }

  lemma CrashRecords(s: System, r: Request, k: nat, takers: Takers, maxRetries: int)
    requires Inv(s) && Enabled(s, Crash(r, k)) && RecordInv(s, takers, maxRetries)
    ensures RecordInv(Step(s, Crash(r, k)), TakenIn(s, Crash(r, k), takers), maxRetries)
  {
    UnansweredKeeps(s, r, k);
    if k == |Commits(s.b, r)| && k > 0 {
      FinishedRecords(s, r, takers, maxRetries);
    } else if k > 0 {
      TwoCommits(s.b, r);
      TornRecords(s, r.id, takers, maxRetries);
    }
    LostRecords(Unanswered(s, r, k), TakenIn(s, Crash(r, k), takers), maxRetries);
  }

  lemma ResetRecorded(st: Tables, h: History, rows: seq<Row>, takers: Takers, maxRetries: int)
    requires Recorded(st, h, takers, maxRetries) && Current(st, rows)
    ensures Recorded(Reset(st, rows), h, takers, maxRetries)
  {
    forall id ensures RecordOn(Reset(st, rows), h, takers, maxRetries, id) {
      assert RecordOn(st, h, takers, maxRetries, id);
      ResetOnlyStatus(st, rows, id);
    }
  }

  lemma RestartRecords(s: System, rows: seq<Row>, done: nat, now: real, takers: Takers, maxRetries: int)
    requires Inv(s) && !s.up && IsLoad(s.b.store, rows) && done <= |rows| && RecordInv(s, takers, maxRetries)
    ensures RecordInv(Restart(s, rows, done, now), takers, maxRetries)
  {
    PrefixCurrent(s.b.store, rows, done);
    ResetRecorded(s.b.store, s.h, rows[..done], takers, maxRetries);
    RebuildKeeps(Empty(maxRetries), rows, now, 0);
  }

  // -------------------------------------------------------------------------- runs

  lemma StepRecords(s: System, e: Event, takers: Takers, maxRetries: int)
    requires Inv(s) && Enabled(s, e) && RecordInv(s, takers, maxRetries)
    ensures RecordInv(Step(s, e), TakenIn(s, e, takers), maxRetries)
  {
    match e
    case Do(r) => ServeRecords(s, r, takers, maxRetries);
    case Crash(r, k) => CrashRecords(s, r, k, takers, maxRetries);
    case Recover(rows, done, now) => RestartRecords(s, rows, done, now, takers, maxRetries);
  }

  lemma {:induction false} RunRecords(s: System, es: seq<Event>, takers: Takers, maxRetries: int)
    requires Inv(s) && Legal(s, es) && RecordInv(s, takers, maxRetries)
    ensures RecordInv(Run(s, es), LastTakers(s, es, takers), maxRetries)
    decreases |es|
  {
    if es != [] {
      StepKeeps(s, es[0]);
      StepRecords(s, es[0], takers, maxRetries);
      RunRecords(Step(s, es[0]), es[1..], TakenIn(s, es[0], takers), maxRetries);
    }
  }

  lemma InitialRecords(maxRetries: int)
    ensures RecordInv(Initial(maxRetries), map[], maxRetries)
  {
    var s := Initial(maxRetries);
    forall id ensures RecordOn(s.b.store, s.h, map[], maxRetries, id) && HeldOn(s.b, id) {
    }
  }

  /**
   Over every run: the stored worker of a task is the last worker it was handed to, through requeues and
   restarts, and memory says the same while it is in flight; a completed task's attempts are its requeues plus one;
   and so are a dead letter's, which has used up its limit.
   */
  lemma StoredRecords(maxRetries: int, es: seq<Event>, id: TaskId)
    requires Legal(Initial(maxRetries), es)
    ensures var s, takers := Run(Initial(maxRetries), es), LastTakers(Initial(maxRetries), es, map[]);
      && RecordOn(s.b.store, s.h, takers, maxRetries, id)
      && (s.up && id in s.b.mgr.inFlight ==> id in s.b.mgr.tasks && s.b.mgr.tasks[id].worker == TakerOf(takers, id))
  {
    InitialInv(maxRetries);
    InitialRecords(maxRetries);
    RunRecords(Initial(maxRetries), es, map[], maxRetries);
    var s, takers := Run(Initial(maxRetries), es), LastTakers(Initial(maxRetries), es, map[]);
    assert RecordOn(s.b.store, s.h, takers, maxRetries, id);
    if s.up {
      assert HeldOn(s.b, id);
    }
  }
}
