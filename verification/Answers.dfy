/**
 What the broker's answers tell a worker, over every run.
 */
module Answers {
  import opened Tasks
  import opened WalStore
  import opened Handlers
  import opened Runs
  import opened Placement
  import opened Agreement
  import opened Durability
  import opened CrashSafety
  import opened Dispatch
  import BS = BrokerServer

  /** How often the task has been handed out before, over all lives of the broker. */
  function Before(h: History, id: TaskId): nat { Count(h.nacks, id) + Count(h.bumps, id) }

  lemma QueuedRecord(s: System, id: TaskId)
    requires Inv(s) && s.up && id in s.b.mgr.tasks && s.b.mgr.tasks[id].status == Pending
    ensures id in s.h.issued && s.b.mgr.tasks[id].queue == s.h.issued[id].queue
    ensures s.b.mgr.tasks[id].payload == s.h.issued[id].payload && s.b.mgr.tasks[id].attempts == Before(s.h, id)
  {
    StatusIsPlace(s.b.mgr, id);
    assert AgreeOn(s.b.mgr, s.b.store, id);
    assert FromOrigin(s.b.store.tasks[id], s.h);
    assert BudgetOn(s.b.store, s.b.mgr.inFlight, s.h, id);
  }

  /** The offer of a named queue: its first waiting task as it was produced and the number of this delivery, or nothing. */
  ghost predicate OfferTells(s: System, n: QueueName, w: WorkerId)
    requires Wf(s)
  {
    if Waiting(s.b.mgr, n) then
      var id := s.b.mgr.queues[n][0];
      id in s.h.issued && BS.Offer(s.b, n, w) == BS.Given(id, n, s.h.issued[id].payload, Before(s.h, id) + 1)
    else
      BS.Offer(s.b, n, w) == BS.NothingToDo
  }

  lemma OfferGiven(s: System, n: QueueName, w: WorkerId)
    requires Inv(s) && s.up && n != "" && n != "*" && Waiting(s.b.mgr, n)
    ensures OfferTells(s, n, w)
  {
    NamedQueueServed(s.b, n, w);
    QueueIsPending(s.b.mgr, n, 0);
    QueuedRecord(s, s.b.mgr.queues[n][0]);
  }

  lemma OfferOf(s: System, n: QueueName, w: WorkerId)
    requires Inv(s) && s.up && n != "" && n != "*"
    ensures OfferTells(s, n, w)
  {
    if Waiting(s.b.mgr, n) {
      OfferGiven(s, n, w);
    } else {
      NamedQueueServed(s.b, n, w);
    }
  }

  /**
   The answer to a CONSUME of a named queue: the first waiting task of that queue, with the payload it was
   produced with and the number of this delivery; or nothing, exactly when the queue has nothing.
   */
  lemma ConsumeAnswer(maxRetries: int, es: seq<Event>, n: QueueName, w: WorkerId)
    requires Legal(Initial(maxRetries), es) && Run(Initial(maxRetries), es).up && n != "" && n != "*"
    ensures OfferTells(Run(Initial(maxRetries), es), n, w)
  {
    Reachable(maxRetries, es);
    OfferOf(Run(Initial(maxRetries), es), n, w);
  }

  lemma HeldRecord(s: System, id: TaskId)
    requires Inv(s) && s.up && id in s.b.mgr.inFlight
    ensures id in s.b.mgr.tasks && s.b.mgr.tasks[id].attempts == Before(s.h, id) + 1
  {
    StatusIsPlace(s.b.mgr, id);
    assert AgreeOn(s.b.mgr, s.b.store, id);
    assert BudgetOn(s.b.store, s.b.mgr.inFlight, s.h, id);
  }

  /**
   The verdict on a NACK: an error for a task that is not in flight, and then nothing changes; otherwise whether
   the store then has the task as a dead letter, and how often it has been handed out.
   */
  ghost predicate VerdictTells(s: System, id: TaskId, w: WorkerId)
    requires Wf(s)
  {
    var b' := DoNack(s.b, id, w);
    if id in s.b.mgr.inFlight then
      && BS.Verdict(s.b.mgr, id) == BS.Failed(id in b'.store.dlq, Before(s.h, id) + 1)
      && (id in b'.store.dlq <==> !Live(b'.store, id))
    else
      BS.Verdict(s.b.mgr, id) == BS.Error && b' == s.b
  }

  lemma VerdictOf(s: System, id: TaskId, w: WorkerId)
    requires Inv(s) && s.up
    ensures VerdictTells(s, id, w)
  {
    if id in s.b.mgr.inFlight {
      HeldRecord(s, id);
      NackRoutes(s, id, w);
    }
  }

  /** The answer to a NACK tells what became of the task and how often it has been handed out; every other task draws an error. */
  lemma NackAnswer(maxRetries: int, es: seq<Event>, id: TaskId, w: WorkerId)
    requires Legal(Initial(maxRetries), es) && Run(Initial(maxRetries), es).up
    ensures VerdictTells(Run(Initial(maxRetries), es), id, w)
  {
    Reachable(maxRetries, es);
    VerdictOf(Run(Initial(maxRetries), es), id, w);
  }

  /** An accepted ACK turns a row that did not say completed into one that does; a refused one changes nothing. */
  ghost predicate AckTells(s: System, id: TaskId, w: WorkerId)
    requires Wf(s)
  {
    var b' := DoAck(s.b, id, w);
    if id in s.b.mgr.inFlight then
      !RowDone(s.b.store, id) && RowDone(b'.store, id) && id in b'.mgr.completed
    else
      b' == s.b
  }

  lemma AckDone(s: System, id: TaskId, w: WorkerId)
    requires Inv(s) && s.up
    ensures AckTells(s, id, w)
  {
    if id in s.b.mgr.inFlight {
      AckAgree(s.b, id, w);
    }
  }

  /** An ACK is accepted exactly for an in-flight task. */
  lemma AckAnswer(maxRetries: int, es: seq<Event>, id: TaskId, w: WorkerId)
    requires Legal(Initial(maxRetries), es) && Run(Initial(maxRetries), es).up
    ensures AckTells(Run(Initial(maxRetries), es), id, w)
  {
    Reachable(maxRetries, es);
    AckDone(Run(Initial(maxRetries), es), id, w);
  }
}
