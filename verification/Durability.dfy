/**
 What every step of a persistent broker keeps, through requests, crashes and recoveries.
 */
module Durability {
  import opened Tasks
  import opened Queues
  import opened WalStore
  import opened Registry
  import opened Handlers
  import opened Runs
  import opened Placement
  import opened Agreement

  // ------------------------------------------------- the store and the history

  /** Every task ever issued has exactly one fate, readable from the two tables and the history. */
  function Fates(st: Tables, h: History, id: TaskId): nat {
    Bit(id in st.tasks) + Bit(id in st.dlq) + Bit(id in h.replayed) + Bit(id in h.purged) + Bit(id in h.lost)
  }

  ghost predicate Accounted(st: Tables, h: History) {
    forall id :: Fates(st, h, id) == Bit(id in h.issued)
  }

  predicate FromOrigin(r: Row, h: History) {
    && r.id in h.issued
    && r.queue == h.issued[r.id].queue && r.payload == h.issued[r.id].payload && r.createdAt == h.issued[r.id].born
    && r.status != DeadLettered
  }

  /** Dead letters may have lost their payload, never their queue. */
  predicate DeadFromOrigin(r: DlqRow, h: History) {
    && r.id in h.issued
    && r.queue == h.issued[r.id].queue
    && (r.payload == h.issued[r.id].payload || r.payload == NO_PAYLOAD)
  }

  ghost predicate Faithful(st: Tables, h: History) {
    && (forall id :: id in st.tasks ==> FromOrigin(st.tasks[id], h))
    && (forall id :: id in st.dlq ==> DeadFromOrigin(st.dlq[id], h))
  }

  predicate Replaces(h: History, id: TaskId) {
    && id in h.replayed && id in h.issued && h.replayed[id] in h.issued
    && h.issued[h.replayed[id]].queue == h.issued[id].queue
    && (h.issued[h.replayed[id]].payload == h.issued[id].payload || h.issued[h.replayed[id]].payload == NO_PAYLOAD)
  }

  ghost predicate Answers(st: Tables, h: History) {
    && h.accepted <= h.issued.Keys
    && (forall id :: id in h.acked ==> id in st.tasks && st.tasks[id].status == Done)
    && (forall id :: id in h.replayed ==> Replaces(h, id))
    && h.nacks.Keys <= h.issued.Keys && h.bumps.Keys <= h.issued.Keys
  }

  ghost predicate StoreInv(st: Tables, h: History) {
    Keyed(st) && Accounted(st, h) && Faithful(st, h) && Answers(st, h)
  }

  /** Changing only status, attempts or worker of one row that nobody acknowledged. */
  lemma RowUpdateStore(st: Tables, h: History, id: TaskId, r: Row)
    requires StoreInv(st, h) && id in st.tasks && r == st.tasks[id].(status := r.status, attempts := r.attempts, worker := r.worker)
    requires r.status != DeadLettered && (id in h.acked ==> r.status == Done)
    ensures StoreInv(st.(tasks := st.tasks[id := r]), h)
  {
    assert st.tasks[id := r].Keys == st.tasks.Keys;
    assert FromOrigin(st.tasks[id], h);
  }

  lemma AckStore(st: Tables, h: History, id: TaskId)
    requires StoreInv(st, h) && id in st.tasks && st.tasks[id].status == Done
    ensures StoreInv(st, h.(acked := h.acked + {id}))
  {
  }

  lemma IssueFaithful(st: Tables, h: History, t: TaskRecord)
    requires Faithful(st, h) && Keyed(st) && t.id !in h.issued && t.status == Pending
    ensures Faithful(SaveTask(st, t), Issue(h, t.id, Origin(t.queue, t.payload, t.createdAt)))
  {
    var st', h' := SaveTask(st, t), Issue(h, t.id, Origin(t.queue, t.payload, t.createdAt));
    forall id | id in st'.tasks ensures FromOrigin(st'.tasks[id], h') {
      assert id != t.id ==> FromOrigin(st.tasks[id], h);
    }
    forall id | id in st'.dlq ensures DeadFromOrigin(st'.dlq[id], h') {
      assert DeadFromOrigin(st.dlq[id], h);
    }
  }

  lemma IssueAnswers(st: Tables, h: History, t: TaskRecord)
    requires Answers(st, h) && Faithful(st, h) && Keyed(st) && t.id !in h.issued
    ensures Answers(SaveTask(st, t), Issue(h, t.id, Origin(t.queue, t.payload, t.createdAt)))
  {
    var h' := Issue(h, t.id, Origin(t.queue, t.payload, t.createdAt));
    forall id | id in h'.replayed ensures Replaces(h', id) {
      assert Replaces(h, id);
    }
    forall id | id in h.acked ensures id != t.id {
      assert FromOrigin(st.tasks[id], h);
    }
  }

  lemma IssueAccounted(st: Tables, h: History, t: TaskRecord)
    requires Accounted(st, h) && t.id !in h.issued
    ensures Accounted(SaveTask(st, t), Issue(h, t.id, Origin(t.queue, t.payload, t.createdAt)))
  {
    var st', h' := SaveTask(st, t), Issue(h, t.id, Origin(t.queue, t.payload, t.createdAt));
    forall id ensures Fates(st', h', id) == Bit(id in h'.issued) {
      assert Fates(st, h, id) == Bit(id in h.issued);
    }
  }

  lemma IssueStore(st: Tables, h: History, t: TaskRecord)
    requires StoreInv(st, h) && t.id !in h.issued && t.status == Pending
    ensures StoreInv(SaveTask(st, t), Issue(h, t.id, Origin(t.queue, t.payload, t.createdAt)))
  {
    IssueFaithful(st, h, t);
    IssueAnswers(st, h, t);
    IssueAccounted(st, h, t);
  }

  lemma DeadStore(st: Tables, h: History, r: DlqRow)
    requires StoreInv(st, h) && Live(st, r.id) && DeadFromOrigin(r, h)
    ensures StoreInv(AddToDlq(st, r), h)
  {
    forall id ensures Fates(AddToDlq(st, r), h, id) == Bit(id in h.issued) {
      assert Fates(st, h, id) == Bit(id in h.issued);
    }
    DeadFaithful(st, h, r);
  }

  lemma DeadFaithful(st: Tables, h: History, r: DlqRow)
    requires Faithful(st, h) && Answers(st, h) && Live(st, r.id) && DeadFromOrigin(r, h)
    ensures Faithful(AddToDlq(st, r), h) && Answers(AddToDlq(st, r), h)
  {
  }

  lemma HalfReplayStore(st: Tables, h: History, id: TaskId)
    requires StoreInv(st, h) && id in st.dlq
    ensures StoreInv(DropDlq(st, id), h.(lost := h.lost + {id}))
  {
    var st', h' := DropDlq(st, id), h.(lost := h.lost + {id});
    forall x ensures Fates(st', h', x) == Bit(x in h.issued) {
      assert Fates(st, h, x) == Bit(x in h.issued);
    }
    HistoryOnly(st, h, h');
  }

  /** The lost, purged and accepted records do not matter to the rows. */
  lemma HistoryOnly(st: Tables, h: History, h': History)
    requires Faithful(st, h) && Answers(st, h)
    requires h' == h.(lost := h'.lost, purged := h'.purged)
    ensures Faithful(st, h') && Answers(st, h')
  {
    forall id | id in st.tasks ensures FromOrigin(st.tasks[id], h') {
      assert FromOrigin(st.tasks[id], h);
    }
    forall id | id in st.dlq ensures DeadFromOrigin(st.dlq[id], h') {
      assert DeadFromOrigin(st.dlq[id], h);
    }
    forall id | id in h.replayed ensures Replaces(h', id) {
      assert Replaces(h, id);
    }
  }

  lemma ReplayStore(st: Tables, h: History, id: TaskId, newId: TaskId, now: real)
    requires StoreInv(st, h) && id in st.dlq && newId !in h.issued
    ensures var o := Origin(st.dlq[id].queue, st.dlq[id].payload, now);
      StoreInv(SaveTask(DropDlq(st, id), NewTask(newId, o.queue, o.payload, now, 0)),
               Issue(h, newId, o).(replayed := h.replayed[id := newId]))
  {
    var d := st.dlq[id];
    assert DeadFromOrigin(d, h);
    HalfReplayStore(st, h, id);
    var h1 := h.(lost := h.lost + {id});
    IssueStore(DropDlq(st, id), h1, NewTask(newId, d.queue, d.payload, now, 0));
    FoundAgain(SaveTask(DropDlq(st, id), NewTask(newId, d.queue, d.payload, now, 0)),
               Issue(h1, newId, Origin(d.queue, d.payload, now)), id, newId, h.lost);
  }

  /** A lost dead letter whose replacement was issued counts as replayed. */
  lemma FoundAgain(st: Tables, h: History, id: TaskId, newId: TaskId, lost: set<TaskId>)
    requires StoreInv(st, h) && id in h.lost && lost == h.lost - {id} && newId in h.issued
    requires h.issued[newId].queue == h.issued[id].queue
    requires h.issued[newId].payload == h.issued[id].payload || h.issued[newId].payload == NO_PAYLOAD
    ensures StoreInv(st, h.(lost := lost, replayed := h.replayed[id := newId]))
  {
    var h' := h.(lost := lost, replayed := h.replayed[id := newId]);
    forall x ensures Fates(st, h', x) == Bit(x in h.issued) {
      assert Fates(st, h, x) == Bit(x in h.issued);
    }
    ReplayedOnly(st, h, h', id);
  }

  lemma ReplayedOnly(st: Tables, h: History, h': History, id: TaskId)
    requires Faithful(st, h) && Answers(st, h)
    requires id in h'.replayed && h' == h.(lost := h'.lost, replayed := h.replayed[id := h'.replayed[id]]) && Replaces(h', id)
    ensures Faithful(st, h') && Answers(st, h')
  {
    forall x | x in st.tasks ensures FromOrigin(st.tasks[x], h') {
      assert FromOrigin(st.tasks[x], h);
    }
    forall x | x in st.dlq ensures DeadFromOrigin(st.dlq[x], h') {
      assert DeadFromOrigin(st.dlq[x], h);
    }
    forall x | x in h'.replayed ensures Replaces(h', x) {
      assert x != id ==> Replaces(h, x);
    }
  }

  lemma PurgeStore(st: Tables, h: History, q: Option<QueueName>)
    requires StoreInv(st, h)
    ensures StoreInv(WalStore.PurgeDlq(st, q), h.(purged := h.purged + PurgedIds(st, q)))
  {
    var st', h' := WalStore.PurgeDlq(st, q), h.(purged := h.purged + PurgedIds(st, q));
    forall x ensures Fates(st', h', x) == Bit(x in h.issued) {
      assert Fates(st, h, x) == Bit(x in h.issued);
    }
    HistoryOnly(st, h, h');
  }

  // ------------------------------------------------------------ retry budget

  function Cap(maxRetries: int): nat {
    if maxRetries < 1 then 1 else maxRetries
  }

  /** A live task was delivered once per requeue it suffered, plus once if it is in flight now. */
  predicate BudgetOn(st: Tables, inFlight: set<TaskId>, h: History, id: TaskId) {
    Live(st, id) ==> st.tasks[id].attempts == Count(h.nacks, id) + Count(h.bumps, id) + Bit(id in inFlight)
  }

  predicate NacksWithin(h: History, maxRetries: int, id: TaskId) {
    Count(h.nacks, id) < Cap(maxRetries)
  }

  ghost predicate Budget(b: Broker, h: History) {
    && (forall id :: BudgetOn(b.store, b.mgr.inFlight, h, id))
    && (forall id :: NacksWithin(h, b.mgr.maxRetries, id))
  }

  // --------------------------------------------------------------- invariant

  ghost predicate MemoryInv(b: Broker, h: History) {
    Placed(b.mgr) && b.mgr.tasks.Keys <= h.issued.Keys && Agree(b.mgr, b.store)
  }

  ghost predicate Inv(s: Runs.System) {
    && Wf(s)
    && StoreInv(s.b.store, s.h)
    && Budget(s.b, s.h)
    && (s.up ==> MemoryInv(s.b, s.h))
    && (!s.up ==> s.b.mgr == Empty(s.b.mgr.maxRetries) && s.b.reg == NoWorkers)
  }

  lemma RowIsIssued(st: Tables, h: History, id: TaskId)
    requires StoreInv(st, h) && id in st.tasks
    ensures id in h.issued && st.tasks[id].createdAt == h.issued[id].born && st.tasks[id].queue == h.issued[id].queue
  {
    assert FromOrigin(st.tasks[id], h);
  }

  // ------------------------------------------------------------------ PRODUCE

  lemma IssueMemory(b: Broker, h: History, t: TaskRecord)
    requires MemoryInv(b, h) && t.id !in h.issued && t.status == Pending && t.attempts == 0
    ensures var h' := Issue(h, t.id, Origin(t.queue, t.payload, t.createdAt));
      MemoryInv(b.(mgr := Add(b.mgr, t), store := SaveTask(b.store, t)), h')
  {
    AddPlaced(b.mgr, t);
    IssueAgree(b.mgr, b.store, t);
  }

  lemma IssueBudget(b: Broker, h: History, t: TaskRecord)
    requires Budget(b, h) && Answers(b.store, h) && t.id !in h.issued && t.attempts == 0 && Valid(b.mgr) && t.id !in b.mgr.tasks
    ensures Budget(b.(mgr := Add(b.mgr, t), store := SaveTask(b.store, t)),
                   Issue(h, t.id, Origin(t.queue, t.payload, t.createdAt)))
  {
    var b' := b.(mgr := Add(b.mgr, t), store := SaveTask(b.store, t));
    var h' := Issue(h, t.id, Origin(t.queue, t.payload, t.createdAt));
    forall id ensures BudgetOn(b'.store, b'.mgr.inFlight, h', id) {
      assert BudgetOn(b.store, b.mgr.inFlight, h, id);
    }
    forall id ensures NacksWithin(h', b'.mgr.maxRetries, id) {
      assert NacksWithin(h, b.mgr.maxRetries, id);
    }
  }

  lemma ProduceKeeps(s: Runs.System, r: Request)
    requires Inv(s) && s.up && Allowed(s, r) && r.Produce?
    ensures Inv(Serve(s, r))
  {
    if r.queue != "" {
      var t := NewTask(r.id, r.queue, r.payload, r.now, 0);
      IssueStore(s.b.store, s.h, t);
      IssueMemory(s.b, s.h, t);
      IssueBudget(s.b, s.h, t);
    }
  }

  // ------------------------------------------------------------------ CONSUME

  lemma ConsumeBudgetOn(b: Broker, h: History, n: QueueName, w: WorkerId, id: TaskId)
    requires Placed(b.mgr) && Agree(b.mgr, b.store) && BudgetOn(b.store, b.mgr.inFlight, h, id)
    ensures BudgetOn(DoConsume(b, n, w).store, DoConsume(b, n, w).mgr.inFlight, h, id)
  {
    if Delivery(b, n, w).Some? {
      ConsumeDelta(b, n, w);
      StatusIsPlace(b.mgr, Delivery(b, n, w).value);
    } else {
      DequeueWrites(b.mgr, n, w);
    }
  }

  lemma ConsumeBudget(b: Broker, h: History, n: QueueName, w: WorkerId)
    requires MemoryInv(b, h) && Budget(b, h)
    ensures Budget(DoConsume(b, n, w), h)
  {
    var b' := DoConsume(b, n, w);
    forall id ensures BudgetOn(b'.store, b'.mgr.inFlight, h, id) {
      assert BudgetOn(b.store, b.mgr.inFlight, h, id);
      ConsumeBudgetOn(b, h, n, w, id);
    }
    forall id ensures NacksWithin(h, b'.mgr.maxRetries, id) {
      assert NacksWithin(h, b.mgr.maxRetries, id);
    }
  }

  lemma ConsumeMemory(b: Broker, h: History, n: QueueName, w: WorkerId)
    requires MemoryInv(b, h)
    ensures MemoryInv(DoConsume(b, n, w), h)
  {
    ConsumeAgree(b, n, w);
    DequeuePlaced(b.mgr, n, w);
    DequeueWrites(b.mgr, n, w);
  }

  lemma ConsumeStore(b: Broker, h: History, n: QueueName, w: WorkerId)
    requires MemoryInv(b, h) && StoreInv(b.store, h)
    ensures StoreInv(DoConsume(b, n, w).store, h)
  {
    if Delivery(b, n, w).Some? {
      var id := Delivery(b, n, w).value;
      ConsumeDelta(b, n, w);
      RowUpdateStore(b.store, h, id, DoConsume(b, n, w).store.tasks[id]);
    }
  }

  lemma ConsumeKeeps(s: Runs.System, n: QueueName, w: WorkerId)
    requires Inv(s) && s.up
    ensures Inv(Serve(s, Consume(n, w)))
  {
    ConsumeStore(s.b, s.h, n, w);
    ConsumeMemory(s.b, s.h, n, w);
    ConsumeBudget(s.b, s.h, n, w);
  }

  // ---------------------------------------------------------------------- ACK

  lemma AckKeeps(s: Runs.System, id: TaskId, w: WorkerId)
    requires Inv(s) && s.up
    ensures Inv(Serve(s, Ack(id, w)))
  {
    if id in s.b.mgr.inFlight {
      AckMemory(s.b, s.h, id, w);
      AckRows(s.b, s.h, id, w);
      AckBudget(s.b, s.h, id, w);
    }
  }

  lemma AckMemory(b: Broker, h: History, id: TaskId, w: WorkerId)
    requires MemoryInv(b, h) && id in b.mgr.inFlight
    ensures MemoryInv(DoAck(b, id, w), h.(acked := h.acked + {id}))
  {
    AckAgree(b, id, w);
    AckPlaced(b.mgr, id);
  }

  lemma AckRows(b: Broker, h: History, id: TaskId, w: WorkerId)
    requires Placed(b.mgr) && Agree(b.mgr, b.store) && StoreInv(b.store, h) && id in b.mgr.inFlight
    ensures StoreInv(DoAck(b, id, w).store, h.(acked := h.acked + {id}))
  {
    AckAgree(b, id, w);
    var r := b.store.tasks[id].(status := Done);
    RowUpdateStore(b.store, h, id, r);
    AckStore(DoAck(b, id, w).store, h, id);
  }

  lemma AckBudget(b: Broker, h: History, id: TaskId, w: WorkerId)
    requires Placed(b.mgr) && Agree(b.mgr, b.store) && Budget(b, h) && id in b.mgr.inFlight
    ensures Budget(DoAck(b, id, w), h.(acked := h.acked + {id}))
  {
    AckAgree(b, id, w);
    var b', h' := DoAck(b, id, w), h.(acked := h.acked + {id});
    forall x ensures BudgetOn(b'.store, b'.mgr.inFlight, h', x) {
      assert BudgetOn(b.store, b.mgr.inFlight, h, x);
    }
    forall x ensures NacksWithin(h', b'.mgr.maxRetries, x) {
      assert NacksWithin(h, b.mgr.maxRetries, x);
    }
  }

  // --------------------------------------------------------------------- NACK

  /** A requeued NACK turns the current delivery into one more NACK; a final one ends the task. */
  lemma NackBudgetOn(b: Broker, h: History, id: TaskId, w: WorkerId, x: TaskId)
    requires Placed(b.mgr) && Agree(b.mgr, b.store) && id in b.mgr.inFlight && BudgetOn(b.store, b.mgr.inFlight, h, x)
    ensures BudgetOn(DoNack(b, id, w).store, b.mgr.inFlight - {id}, Note(b, h, Nack(id, w)), x)
  {
    NackDelta(b, id, w);
  }

  lemma NackWithin(b: Broker, h: History, id: TaskId, w: WorkerId, x: TaskId)
    requires Placed(b.mgr) && Agree(b.mgr, b.store) && Budget(b, h) && id in b.mgr.inFlight
    ensures NacksWithin(Note(b, h, Nack(id, w)), b.mgr.maxRetries, x)
  {
    NackDelta(b, id, w);
    assert AgreeOn(b.mgr, b.store, id);
    assert BudgetOn(b.store, b.mgr.inFlight, h, id);
    assert NacksWithin(h, b.mgr.maxRetries, x);
    NackCounted(b.mgr, b.store, h, id, x);
  }

  // A NACK is counted only below the limit, so the count stays below it.
  lemma NackCounted(m: QueueState, st: Tables, h: History, id: TaskId, x: TaskId)
    requires Valid(m) && id in m.inFlight && Live(st, id) && st.tasks[id].attempts == m.tasks[id].attempts
    requires BudgetOn(st, m.inFlight, h, id) && NacksWithin(h, m.maxRetries, x)
    ensures NacksWithin(if Exhausted(m, id) then h else h.(nacks := Bump(h.nacks, {id})), m.maxRetries, x)
  {
  }

  lemma NackBudget(b: Broker, h: History, id: TaskId, w: WorkerId)
    requires Placed(b.mgr) && Agree(b.mgr, b.store) && Budget(b, h) && id in b.mgr.inFlight
    ensures Budget(DoNack(b, id, w), Note(b, h, Nack(id, w)))
  {
    NackWrites(b.mgr, id);
    forall x
      ensures BudgetOn(DoNack(b, id, w).store, b.mgr.inFlight - {id}, Note(b, h, Nack(id, w)), x)
      ensures NacksWithin(Note(b, h, Nack(id, w)), b.mgr.maxRetries, x)
    {
      NackBudgetOn(b, h, id, w, x);
      NackWithin(b, h, id, w, x);
    }
  }

  /** The dead letter that a NACK writes is the task's own, up to a forgotten payload. */
  lemma NackDeadLetter(b: Broker, h: History, id: TaskId, w: WorkerId)
    requires MemoryInv(b, h) && StoreInv(b.store, h) && id in b.mgr.inFlight && Exhausted(b.mgr, id)
    ensures var b' := DoNack(b, id, w);
      && id in b'.store.dlq && b'.store == AddToDlq(b.store, b'.store.dlq[id])
      && b'.store.dlq[id].id == id && DeadFromOrigin(b'.store.dlq[id], h)
  {
    NackDelta(b, id, w);
    assert AgreeOn(b.mgr, b.store, id);
    assert FromOrigin(b.store.tasks[id], h);
  }

  lemma NackStore(b: Broker, h: History, id: TaskId, w: WorkerId)
    requires MemoryInv(b, h) && StoreInv(b.store, h) && id in b.mgr.inFlight
    ensures StoreInv(DoNack(b, id, w).store, h)
  {
    var b' := DoNack(b, id, w);
    NackDelta(b, id, w);
    if Exhausted(b.mgr, id) {
      NackDeadLetter(b, h, id, w);
      DeadStore(b.store, h, b'.store.dlq[id]);
    } else {
      RowUpdateStore(b.store, h, id, b'.store.tasks[id]);
    }
  }

  /** Requeue counters do not matter to the store invariant as long as they count issued tasks. */
  lemma CountersStore(st: Tables, h: History, nacks: map<TaskId, nat>, bumps: map<TaskId, nat>)
    requires StoreInv(st, h) && nacks.Keys <= h.issued.Keys && bumps.Keys <= h.issued.Keys
    ensures StoreInv(st, h.(nacks := nacks, bumps := bumps))
  {
    var h' := h.(nacks := nacks, bumps := bumps);
    forall x ensures Fates(st, h', x) == Bit(x in h'.issued) {
      assert Fates(st, h, x) == Bit(x in h.issued);
    }
    forall id | id in st.tasks ensures FromOrigin(st.tasks[id], h') {
      assert FromOrigin(st.tasks[id], h);
    }
    forall id | id in st.dlq ensures DeadFromOrigin(st.dlq[id], h') {
      assert DeadFromOrigin(st.dlq[id], h);
    }
    forall id | id in h.replayed ensures Replaces(h', id) {
      assert Replaces(h, id);
    }
  }

  lemma NackMemory(b: Broker, h: History, id: TaskId, w: WorkerId)
    requires MemoryInv(b, h) && id in b.mgr.inFlight
    ensures MemoryInv(DoNack(b, id, w), h)
  {
    NackAgree(b, id, w);
    NackDelta(b, id, w);
    NackPlaced(b.mgr, id);
  }

  lemma MemoryCounters(b: Broker, h: History, h': History)
    requires MemoryInv(b, h) && h'.issued == h.issued
    ensures MemoryInv(b, h')
  {
  }

  lemma NackKeeps(s: Runs.System, id: TaskId, w: WorkerId)
    requires Inv(s) && s.up
    ensures Inv(Serve(s, Nack(id, w)))
  {
    if id in s.b.mgr.inFlight {
      var b', h' := DoNack(s.b, id, w), Note(s.b, s.h, Nack(id, w));
      assert Serve(s, Nack(id, w)) == Runs.System(true, b', h');
      assert h' == s.h.(nacks := h'.nacks, bumps := s.h.bumps);
      assert StoreInv(b'.store, h') by {
        NackStore(s.b, s.h, id, w);
        CountersStore(b'.store, s.h, h'.nacks, s.h.bumps);
      }
      assert MemoryInv(b', h') by {
        NackMemory(s.b, s.h, id, w);
        MemoryCounters(b', s.h, h');
      }
      NackBudget(s.b, s.h, id, w);
    }
  }

  // ----------------------------------------------------------------- eviction

  lemma TickBudget(b: Broker, h: History, now: real, ids: seq<TaskId>)
    requires Valid(b.mgr) && Budget(b, h)
    ensures Budget(DoTick(b, now, ids), Note(b, h, Tick(now, ids)))
  {
    var b', h' := DoTick(b, now, ids), Note(b, h, Tick(now, ids));
    RequeueAllWrites(b.mgr, ids);
    forall x ensures BudgetOn(b'.store, b'.mgr.inFlight, h', x) {
      assert BudgetOn(b.store, b.mgr.inFlight, h, x);
    }
    forall x ensures NacksWithin(h', b'.mgr.maxRetries, x) {
      assert NacksWithin(h, b.mgr.maxRetries, x);
    }
  }

  lemma TickKeeps(s: Runs.System, now: real, ids: seq<TaskId>)
    requires Inv(s) && s.up
    ensures Inv(Serve(s, Tick(now, ids)))
  {
    var h' := Note(s.b, s.h, Tick(now, ids));
    RequeueAllWrites(s.b.mgr, ids);
    CountersStore(s.b.store, s.h, s.h.nacks, h'.bumps);
    RequeueAllPlaced(s.b.mgr, ids);
    TickAgree(s.b.mgr, s.b.store, ids);
    TickBudget(s.b, s.h, now, ids);
  }

  // -------------------------------------------------------- replay and purge

  /** Memory never looks at the dead letter table. */
  lemma DlqIrrelevant(b: Broker, h: History, dlq: map<TaskId, DlqRow>)
    requires MemoryInv(b, h)
    ensures MemoryInv(b.(store := b.store.(dlq := dlq)), h)
  {
    var st' := b.store.(dlq := dlq);
    forall id ensures AgreeOn(b.mgr, st', id) {
      assert AgreeOn(b.mgr, b.store, id);
    }
  }

  lemma DlqBudget(b: Broker, h: History, dlq: map<TaskId, DlqRow>)
    requires Budget(b, h)
    ensures Budget(b.(store := b.store.(dlq := dlq)), h)
  {
    var st' := b.store.(dlq := dlq);
    forall id ensures BudgetOn(st', b.mgr.inFlight, h, id) {
      assert BudgetOn(b.store, b.mgr.inFlight, h, id);
    }
  }

  lemma BudgetHistory(b: Broker, h: History, h': History)
    requires Budget(b, h) && h'.nacks == h.nacks && h'.bumps == h.bumps
    ensures Budget(b, h')
  {
    forall id ensures BudgetOn(b.store, b.mgr.inFlight, h', id) && NacksWithin(h', b.mgr.maxRetries, id) {
      assert BudgetOn(b.store, b.mgr.inFlight, h, id) && NacksWithin(h, b.mgr.maxRetries, id);
    }
  }

  lemma ReplayKeeps(s: Runs.System, id: TaskId, newId: TaskId, now: real)
    requires Inv(s) && s.up && Allowed(s, Replay(id, newId, now))
    ensures Inv(Serve(s, Replay(id, newId, now)))
  {
    if id in s.b.store.dlq {
      var d := s.b.store.dlq[id];
      var t := NewTask(newId, d.queue, d.payload, now, 0);
      var b1 := s.b.(store := DropDlq(s.b.store, id));
      var h1 := Issue(s.h, newId, Origin(d.queue, d.payload, now));
      var s' := Serve(s, Replay(id, newId, now));
      assert s'.b == b1.(mgr := Add(b1.mgr, t), store := SaveTask(b1.store, t));
      assert StoreInv(s'.b.store, s'.h) by { ReplayStore(s.b.store, s.h, id, newId, now); }
      assert MemoryInv(s'.b, s'.h) by {
        DlqIrrelevant(s.b, s.h, b1.store.dlq);
        IssueMemory(b1, s.h, t);
        MemoryCounters(s'.b, h1, s'.h);
      }
      assert Budget(s'.b, s'.h) by {
        DlqBudget(s.b, s.h, b1.store.dlq);
        IssueBudget(b1, s.h, t);
        BudgetHistory(s'.b, h1, s'.h);
      }
    }
  }

  lemma PurgeKeeps(s: Runs.System, q: Option<QueueName>)
    requires Inv(s) && s.up
    ensures Inv(Serve(s, Handlers.PurgeDlq(q)))
  {
    var s' := Serve(s, Handlers.PurgeDlq(q));
    PurgeStore(s.b.store, s.h, q);
    DlqIrrelevant(s.b, s.h, s'.b.store.dlq);
    MemoryCounters(s'.b, s.h, s'.h);
    DlqBudget(s.b, s.h, s'.b.store.dlq);
    BudgetHistory(s'.b, s.h, s'.h);
  }

  /** The registry is no part of the invariant. */
  lemma RegistryKeeps(s: Runs.System, r: Request)
    requires Inv(s) && s.up && (r.Join? || r.Beat?)
    ensures Inv(Serve(s, r))
  {
    var s' := Serve(s, r);
    assert s'.b.mgr == s.b.mgr && s'.b.store == s.b.store && s'.h == s.h;
    assert MemoryInv(s'.b, s'.h) && Budget(s'.b, s'.h);
  }

  lemma ServeKeeps(s: Runs.System, r: Request)
    requires Inv(s) && s.up && Allowed(s, r)
    ensures Inv(Serve(s, r))
  {
    match r
    case Produce(_, _, _, _) => ProduceKeeps(s, r);
    case Consume(n, w) => ConsumeKeeps(s, n, w);
    case Ack(id, w) => AckKeeps(s, id, w);
    case Nack(id, w) => NackKeeps(s, id, w);
    case Join(_, _) => RegistryKeeps(s, r);
    case Beat(_, _) => RegistryKeeps(s, r);
    case Tick(now, ids) => TickKeeps(s, now, ids);
    case Replay(id, newId, now) => ReplayKeeps(s, id, newId, now);
    case PurgeDlq(q) => PurgeKeeps(s, q);
  }
}
