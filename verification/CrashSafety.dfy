/**
 The promises of a persistent broker over all its runs: nothing accepted is lost, nothing
 acknowledged is handed out again, memory and store agree and retries stay within budget,
 whatever crashes and restarts happen in between and whatever the wall clock does.
 */
module CrashSafety {
  import opened Tasks
  import opened Queues
  import opened WalStore
  import opened Registry
  import opened Handlers
  import opened Runs
  import opened Placement
  import opened Agreement
  import opened Durability
  import opened Recovery

  // ------------------------------------------------------------------ crashes

  lemma ForgetAnswers(s: System, accepted: set<TaskId>, acked: set<TaskId>)
    requires Inv(s) && s.up && accepted <= s.h.accepted && acked <= s.h.acked
    ensures Inv(s.(h := s.h.(accepted := accepted, acked := acked)))
  {
    var h' := s.h.(accepted := accepted, acked := acked);
    AnswersStore(s.b.store, s.h, accepted, acked);
    MemoryCounters(s.b, s.h, h');
    BudgetHistory(s.b, s.h, h');
  }

  lemma AnswersStore(st: Tables, h: History, accepted: set<TaskId>, acked: set<TaskId>)
    requires StoreInv(st, h) && accepted <= h.accepted && acked <= h.acked
    ensures StoreInv(st, h.(accepted := accepted, acked := acked))
  {
    var h' := h.(accepted := accepted, acked := acked);
    forall x ensures Fates(st, h', x) == Bit(x in h'.issued) {
      assert Fates(st, h, x) == Bit(x in h.issued);
    }
    forall id | id in st.tasks ensures FromOrigin(st.tasks[id], h') {
      assert FromOrigin(st.tasks[id], h);
    }
    forall id | id in st.dlq ensures DeadFromOrigin(st.dlq[id], h') {
      assert DeadFromOrigin(st.dlq[id], h);
    }
    forall id | id in h.replayed ensures Replaces(h', id) {
      assert Replaces(h, id);
    }
  }

  lemma HalfReplayKeeps(s: System, id: TaskId)
    requires Inv(s) && s.up && id in s.b.store.dlq
    ensures Inv(Torn(s, id))
  {
    var b', h' := s.b.(store := DropDlq(s.b.store, id)), s.h.(lost := s.h.lost + {id});
    HalfReplayStore(s.b.store, s.h, id);
    DlqIrrelevant(s.b, s.h, b'.store.dlq);
    MemoryCounters(b', s.h, h');
    DlqBudget(s.b, s.h, b'.store.dlq);
    BudgetHistory(b', s.h, h');
  }

  lemma AnsweredLater(s: System, r: Request)
    requires Inv(s) && s.up && Allowed(s, r)
    ensures Inv(Finished(s, r)) && Finished(s, r).up
  {
    ServeKeeps(s, r);
    NoteGrows(s.b, s.h, r);
    ForgetAnswers(Serve(s, r), s.h.accepted, s.h.acked);
  }

  lemma NoteGrows(b: Broker, h: History, r: Request)
    requires Valid(b.mgr)
    ensures h.accepted <= Note(b, h, r).accepted && h.acked <= Note(b, h, r).acked
  {
  }

  /** DLQ_REPLAY is the only handler that commits twice. */
  lemma TwoCommits(b: Broker, r: Request)
    requires Valid(b.mgr) && |Commits(b, r)| > 1
    ensures r.Replay? && r.id in b.store.dlq && |Commits(b, r)| == 2
  {
  }

  lemma UnansweredKeeps(s: System, r: Request, k: nat)
    requires Inv(s) && s.up && Allowed(s, r) && k <= |Commits(s.b, r)|
    ensures Inv(Unanswered(s, r, k)) && Unanswered(s, r, k).up
  {
    if k == |Commits(s.b, r)| && k > 0 {
      AnsweredLater(s, r);
    } else if k > 0 {
      TwoCommits(s.b, r);
      HalfReplayKeeps(s, r.id);
    }
  }

  lemma LoseBudget(b: Broker, h: History)
    requires Budget(b, h)
    ensures Budget(Broker(Empty(b.mgr.maxRetries), NoWorkers, b.store), h.(bumps := Bump(h.bumps, b.mgr.inFlight)))
  {
    var h' := h.(bumps := Bump(h.bumps, b.mgr.inFlight));
    forall id ensures BudgetOn(b.store, {}, h', id) && NacksWithin(h', b.mgr.maxRetries, id) {
      assert BudgetOn(b.store, b.mgr.inFlight, h, id) && NacksWithin(h, b.mgr.maxRetries, id);
    }
  }

  lemma LoseMemoryKeeps(s: System)
    requires Inv(s) && s.up
    ensures Inv(LoseMemory(s))
  {
    CountersStore(s.b.store, s.h, s.h.nacks, Bump(s.h.bumps, s.b.mgr.inFlight));
    LoseBudget(s.b, s.h);
  }

  // ----------------------------------------------------------------- recovery

  lemma RestartBudget(b: Broker, h: History, rows: seq<Row>)
    requires Budget(b, h) && Current(b.store, rows) && b.mgr.inFlight == {}
    ensures forall m: QueueState :: m.inFlight == {} && m.maxRetries == b.mgr.maxRetries ==>
              Budget(Broker(m, NoWorkers, Reset(b.store, rows)), h)
  {
    forall id ensures BudgetOn(Reset(b.store, rows), {}, h, id) && NacksWithin(h, b.mgr.maxRetries, id) {
      ResetOnlyStatus(b.store, rows, id);
      assert BudgetOn(b.store, b.mgr.inFlight, h, id) && NacksWithin(h, b.mgr.maxRetries, id);
    }
  }

  lemma RestartMemory(st: Tables, h: History, rows: seq<Row>, maxRetries: int, now: real)
    requires StoreInv(st, h) && IsLoad(st, rows)
    ensures var m := Rebuild(Empty(maxRetries), rows, now);
      && MemoryInv(Broker(m, NoWorkers, Reset(st, rows)), h)
      && m.inFlight == {} && m.maxRetries == maxRetries
  {
    var empty := Empty(maxRetries);
    var m := Rebuild(empty, rows, now);
    RebuildPlaced(empty, rows, now);
    RebuildAgrees(st, rows, maxRetries, now);
    RebuildKeeps(empty, rows, now, 0);
    forall id | id in m.tasks ensures id in h.issued {
      RebuildKeeps(empty, rows, now, id);
      LoadCovers(st, rows, id);
      RowIsIssued(st, h, id);
    }
  }

  lemma RestartKeeps(s: System, rows: seq<Row>, done: nat, now: real)
    requires Inv(s) && !s.up && IsLoad(s.b.store, rows) && done <= |rows|
    ensures Inv(Restart(s, rows, done, now))
  {
    PrefixCurrent(s.b.store, rows, done);
    ResetStore(s.b.store, s.h, rows[..done]);
    RestartBudget(s.b, s.h, rows[..done]);
    if done == |rows| {
      assert rows[..done] == rows;
      RestartMemory(s.b.store, s.h, rows, s.b.mgr.maxRetries, now);
    }
  }

  lemma StepKeeps(s: System, e: Event)
    requires Inv(s) && Enabled(s, e)
    ensures Inv(Step(s, e))
  {
    match e
    case Do(r) => ServeKeeps(s, r);
    case Crash(r, k) =>
      UnansweredKeeps(s, r, k);
      LoseMemoryKeeps(Unanswered(s, r, k));
    case Recover(rows, done, now) => RestartKeeps(s, rows, done, now);
  }

  lemma {:induction false} RunKeeps(s: System, es: seq<Event>)
    requires Inv(s) && Legal(s, es)
    ensures Inv(Run(s, es))
    decreases |es|
  {
    if es != [] {
      StepKeeps(s, es[0]);
      RunKeeps(Step(s, es[0]), es[1..]);
    }
  }

  lemma InitialInv(maxRetries: int)
    ensures Inv(Initial(maxRetries))
  {
    var s := Initial(maxRetries);
    forall id ensures Fates(s.b.store, s.h, id) == Bit(id in s.h.issued) {
    }
    forall id ensures AgreeOn(s.b.mgr, s.b.store, id) && BudgetOn(s.b.store, {}, s.h, id) && NacksWithin(s.h, maxRetries, id) {
    }
  }

  /** The invariant holds after every run from an empty database. */
  lemma Reachable(maxRetries: int, es: seq<Event>)
    requires Legal(Initial(maxRetries), es)
    ensures Inv(Run(Initial(maxRetries), es))
  {
    InitialInv(maxRetries);
    RunKeeps(Initial(maxRetries), es);
  }

  // ------------------------------------------------------------- nothing is lost

  datatype Fate = AtWork | Completed | Dead | Replaced | Purged | Lost

  /** id is still to be done: its row holds what was produced, and if the broker is up, so does memory. */
  ghost predicate Working(s: System, id: TaskId) {
    && Live(s.b.store, id) && id in s.h.issued
    && s.b.store.tasks[id].queue == s.h.issued[id].queue
    && s.b.store.tasks[id].payload == s.h.issued[id].payload
    && (s.up ==>
          && id in s.b.mgr.tasks
          && (Queued(s.b.mgr, id) || id in s.b.mgr.inFlight)
          && s.b.mgr.tasks[id].queue == s.h.issued[id].queue
          && s.b.mgr.tasks[id].payload == s.h.issued[id].payload
          && s.b.mgr.tasks[id].attempts == s.b.store.tasks[id].attempts)
  }

  ghost predicate HasFate(s: System, id: TaskId, f: Fate) {
    match f
    case AtWork => Working(s, id)
    case Completed => id in s.b.store.tasks && s.b.store.tasks[id].status == Done
    case Dead => id in s.b.store.dlq
    case Replaced => id in s.h.replayed && s.h.replayed[id] in s.h.issued
    case Purged => id in s.h.purged
    case Lost => id in s.h.lost
  }

  ghost predicate OneFate(s: System, id: TaskId) {
    exists f :: HasFate(s, id, f) && forall f' :: HasFate(s, id, f') ==> f' == f
  }

  lemma LiveIsWorking(s: System, id: TaskId)
    requires Inv(s) && Live(s.b.store, id)
    ensures Working(s, id)
  {
    assert FromOrigin(s.b.store.tasks[id], s.h);
    if s.up {
      assert AgreeOn(s.b.mgr, s.b.store, id);
      StatusIsPlace(s.b.mgr, id);
    }
  }

  lemma FateOf(s: System, id: TaskId) returns (f: Fate)
    requires Inv(s) && id in s.h.issued
    ensures HasFate(s, id, f)
  {
    assert Fates(s.b.store, s.h, id) == 1;
    if id in s.b.store.tasks {
      assert FromOrigin(s.b.store.tasks[id], s.h);
      if Live(s.b.store, id) {
        LiveIsWorking(s, id);
        f := AtWork;
      } else {
        f := Completed;
      }
    } else {
      assert id in s.h.replayed ==> Replaces(s.h, id);
      f := if id in s.b.store.dlq then Dead else if id in s.h.replayed then Replaced
           else if id in s.h.purged then Purged else Lost;
    }
  }

  /** In every run, every task that was accepted (indeed every task that reached the store) has exactly
      one fate, and if it is still to be done it is in its queue or in flight with its original content. */
  lemma NoTaskLost(maxRetries: int, es: seq<Event>, id: TaskId)
    requires Legal(Initial(maxRetries), es)
    requires var h := Run(Initial(maxRetries), es).h; id in h.accepted || id in h.issued
    ensures OneFate(Run(Initial(maxRetries), es), id)
  {
    Reachable(maxRetries, es);
    var s := Run(Initial(maxRetries), es);
    var f := FateOf(s, id);
    assert Fates(s.b.store, s.h, id) == 1;
    forall f' | HasFate(s, id, f') ensures f' == f {
    }
  }

  /** The crash that tears a replay apart. */
  predicate Tears(e: Event) {
    e.Crash? && e.during.Replay? && e.commits == 1
  }

  function TornCount(es: seq<Event>): nat {
    if es == [] then 0 else (if Tears(es[0]) then 1 else 0) + TornCount(es[1..])
  }

  lemma ServeLosesNothing(s: System, r: Request)
    requires Wf(s)
    ensures Serve(s, r).h.lost == s.h.lost
  {
  }

  lemma UnansweredLost(s: System, r: Request, k: nat)
    requires Inv(s) && s.up && Allowed(s, r) && k <= |Commits(s.b, r)|
    ensures |Unanswered(s, r, k).h.lost| == |s.h.lost| + if r.Replay? && k == 1 then 1 else 0
  {
    ServeLosesNothing(s, r);
    if 0 < k < |Commits(s.b, r)| {
      TwoCommits(s.b, r);
      assert Fates(s.b.store, s.h, r.id) <= 1;
    } else if r.Replay? && k == 1 {
      TornIsTorn(s.b, r);
    }
  }

  lemma LostStep(s: System, e: Event)
    requires Inv(s) && Enabled(s, e)
    ensures |Step(s, e).h.lost| == |s.h.lost| + if Tears(e) then 1 else 0
  {
    match e
    case Do(r) => ServeLosesNothing(s, r);
    case Recover(_, _, _) =>
    case Crash(r, k) => UnansweredLost(s, r, k);
  }

  lemma TornIsTorn(b: Broker, r: Request)
    requires Valid(b.mgr) && r.Replay? && |Commits(b, r)| > 0
    ensures |Commits(b, r)| == 2
  {
  }

  lemma {:induction false} LostRun(s: System, es: seq<Event>)
    requires Inv(s) && Legal(s, es)
    ensures |Run(s, es).h.lost| == |s.h.lost| + TornCount(es)
    decreases |es|
  {
    if es != [] {
      LostStep(s, es[0]);
      StepKeeps(s, es[0]);
      LostRun(Step(s, es[0]), es[1..]);
    }
  }

  /** Exactly the crashes between the two commits of a DLQ_REPLAY lose a task, one each. */
  lemma LostExactlyWhenTorn(maxRetries: int, es: seq<Event>)
    requires Legal(Initial(maxRetries), es)
    ensures |Run(Initial(maxRetries), es).h.lost| == TornCount(es)
    ensures Run(Initial(maxRetries), es).h.lost == {} <==> forall i :: 0 <= i < |es| ==> !Tears(es[i])
  {
    InitialInv(maxRetries);
    LostRun(Initial(maxRetries), es);
    TornCountZero(es);
  }

  lemma {:induction false} TornCountZero(es: seq<Event>)
    ensures TornCount(es) == 0 <==> forall i :: 0 <= i < |es| ==> !Tears(es[i])
  {
    if es != [] {
      TornCountZero(es[1..]);
      assert forall i :: 0 < i < |es| ==> es[i] == es[1..][i - 1];
    }
  }

  // ------------------------------------------------- acknowledged means finished

  predicate RowDone(st: Tables, id: TaskId) {
    id in st.tasks && st.tasks[id].status == Done
  }

  /** The task an event hands to a worker. */
  function Handed(s: System, e: Event): Option<TaskId>
    requires Wf(s)
  {
    if e.Do? && e.req.Consume? then Delivery(s.b, e.req.queue, e.req.worker) else None
  }

  ghost predicate HandsOut(s: System, es: seq<Event>, id: TaskId)
    requires Wf(s) && Legal(s, es)
    decreases |es|
  {
    es != [] && (Handed(s, es[0]) == Some(id) || HandsOut(Step(s, es[0]), es[1..], id))
  }

  /** CONSUME, ACK and NACK rewrite only live rows. */
  lemma AnswerKeepsDone(b: Broker, r: Request, id: TaskId)
    requires Placed(b.mgr) && Agree(b.mgr, b.store) && (r.Consume? || r.Ack? || r.Nack?) && RowDone(b.store, id)
    ensures RowDone(Handle(b, r).store, id)
  {
    match r
    case Consume(n, w) =>
      if Delivery(b, n, w).Some? { ConsumeDelta(b, n, w); }
    case Ack(x, w) =>
      if x in b.mgr.inFlight { AckAgree(b, x, w); }
    case Nack(x, w) =>
      if x in b.mgr.inFlight { NackDelta(b, x, w); }
  }

  lemma ServeKeepsDone(s: System, r: Request, id: TaskId)
    requires Inv(s) && s.up && Allowed(s, r) && RowDone(s.b.store, id)
    ensures RowDone(Serve(s, r).b.store, id)
  {
    RowIsIssued(s.b.store, s.h, id);
    if r.Consume? || r.Ack? || r.Nack? {
      AnswerKeepsDone(s.b, r, id);
    }
  }

  lemma DoneNotHanded(s: System, e: Event, id: TaskId)
    requires Inv(s) && Enabled(s, e) && RowDone(s.b.store, id)
    ensures Handed(s, e) != Some(id)
  {
    if Handed(s, e).Some? {
      ConsumeDelta(s.b, e.req.queue, e.req.worker);
    }
  }

  lemma UnansweredKeepsDone(s: System, r: Request, k: nat, id: TaskId)
    requires Inv(s) && s.up && Allowed(s, r) && k <= |Commits(s.b, r)| && RowDone(s.b.store, id)
    ensures RowDone(Unanswered(s, r, k).b.store, id)
  {
    if k == |Commits(s.b, r)| && k > 0 {
      ServeKeepsDone(s, r, id);
      assert Finished(s, r).b.store == Serve(s, r).b.store;
    } else if k > 0 {
      assert Torn(s, r.id).b.store.tasks == s.b.store.tasks;
    }
  }

  lemma DoneStep(s: System, e: Event, id: TaskId)
    requires Inv(s) && Enabled(s, e) && RowDone(s.b.store, id)
    ensures RowDone(Step(s, e).b.store, id)
  {
    match e
    case Do(r) => ServeKeepsDone(s, r, id);
    case Crash(r, k) => UnansweredKeepsDone(s, r, k, id);
    case Recover(rows, done, _) =>
      PrefixCurrent(s.b.store, rows, done);
      ResetOnlyStatus(s.b.store, rows[..done], id);
  }

  /** Once a row says done, no later request, crash or recovery changes that or hands the task out. */
  lemma {:induction false} DoneIsFinal(s: System, es: seq<Event>, id: TaskId)
    requires Inv(s) && Legal(s, es) && RowDone(s.b.store, id)
    ensures RowDone(Run(s, es).b.store, id) && !HandsOut(s, es, id)
    decreases |es|
  {
    if es != [] {
      DoneNotHanded(s, es[0], id);
      DoneStep(s, es[0], id);
      StepKeeps(s, es[0]);
      DoneIsFinal(Step(s, es[0]), es[1..], id);
    }
  }

  /** After an ACK is answered ok, the task is never handed out again, across evictions, replays and restarts. */
  lemma NoRedeliveryAfterAck(maxRetries: int, es: seq<Event>, id: TaskId, w: WorkerId, later: seq<Event>)
    requires Legal(Initial(maxRetries), es)
    requires var s := Run(Initial(maxRetries), es); s.up && id in s.b.mgr.inFlight
    requires Legal(Step(Run(Initial(maxRetries), es), Do(Ack(id, w))), later)
    ensures !HandsOut(Step(Run(Initial(maxRetries), es), Do(Ack(id, w))), later, id)
  {
    Reachable(maxRetries, es);
    var s := Run(Initial(maxRetries), es);
    StepKeeps(s, Do(Ack(id, w)));
    AckAgree(s.b, id, w);
    DoneIsFinal(Step(s, Do(Ack(id, w))), later, id);
  }

  // ------------------------------------------------------- memory, shape, budget

  /** Between handlers, memory and store agree: pending or in flight here means pending or in flight there. */
  lemma MemoryMatchesStore(maxRetries: int, es: seq<Event>, id: TaskId)
    requires Legal(Initial(maxRetries), es) && Run(Initial(maxRetries), es).up
    ensures var b := Run(Initial(maxRetries), es).b;
      && (Live(b.store, id) <==> id in b.mgr.tasks && (Queued(b.mgr, id) || id in b.mgr.inFlight))
      && (Live(b.store, id) ==>
            && b.store.tasks[id].queue == b.mgr.tasks[id].queue
            && b.store.tasks[id].payload == b.mgr.tasks[id].payload
            && b.store.tasks[id].attempts == b.mgr.tasks[id].attempts
            && (id in b.mgr.inFlight ==> b.store.tasks[id].status == InFlight))
  {
    Reachable(maxRetries, es);
    var b := Run(Initial(maxRetries), es).b;
    assert AgreeOn(b.mgr, b.store, id);
    if id in b.mgr.tasks {
      StatusIsPlace(b.mgr, id);
    }
  }

  lemma WithinBudget(s: System, id: TaskId)
    requires Inv(s) && Live(s.b.store, id)
    ensures Count(s.h.nacks, id) <= Cap(s.b.mgr.maxRetries) - 1
    ensures s.b.store.tasks[id].attempts <= Cap(s.b.mgr.maxRetries) + Count(s.h.bumps, id)
    ensures s.b.store.tasks[id].attempts == Count(s.h.nacks, id) + Count(s.h.bumps, id) + Bit(id in s.b.mgr.inFlight)
  {
    assert BudgetOn(s.b.store, s.b.mgr.inFlight, s.h, id);
    assert NacksWithin(s.h, s.b.mgr.maxRetries, id);
  }

  /** A live task was requeued by NACK fewer than max(1, max_retries) times, and its attempts exceed
      that only by the evictions and crashes it suffered. */
  lemma RetryBudget(maxRetries: int, es: seq<Event>, id: TaskId)
    requires Legal(Initial(maxRetries), es) && Live(Run(Initial(maxRetries), es).b.store, id)
    ensures var s := Run(Initial(maxRetries), es);
      && Count(s.h.nacks, id) <= Cap(maxRetries) - 1
      && s.b.store.tasks[id].attempts <= Cap(maxRetries) + Count(s.h.bumps, id)
      && s.b.store.tasks[id].attempts == Count(s.h.nacks, id) + Count(s.h.bumps, id) + Bit(id in s.b.mgr.inFlight)
  {
    InitialInv(maxRetries);
    Reachable(maxRetries, es);
    MaxRetriesFixed(Initial(maxRetries), es);
    WithinBudget(Run(Initial(maxRetries), es), id);
  }

  lemma ServeMaxRetries(s: System, r: Request)
    requires Wf(s)
    ensures Serve(s, r).b.mgr.maxRetries == s.b.mgr.maxRetries
  {
    match r
    case Nack(id, _) =>
      if id in s.b.mgr.inFlight { NackWrites(s.b.mgr, id); }
    case Tick(_, ids) => RequeueAllWrites(s.b.mgr, ids);
    case _ =>
  }

  lemma {:induction false} MaxRetriesFixed(s: System, es: seq<Event>)
    requires Inv(s) && Legal(s, es)
    ensures Run(s, es).b.mgr.maxRetries == s.b.mgr.maxRetries
    decreases |es|
  {
    if es != [] {
      match es[0] {
        case Do(r) => ServeMaxRetries(s, r);
        case Crash(r, k) => ServeMaxRetries(s, r);
        case Recover(rows, _, now) => RebuildKeeps(Empty(s.b.mgr.maxRetries), rows, now, 0);
      }
      StepKeeps(s, es[0]);
      MaxRetriesFixed(Step(s, es[0]), es[1..]);
    }
  }

  lemma RequeuedInFront(m: QueueState, id: TaskId)
    requires Valid(m) && id in m.inFlight && !Exhausted(m, id)
    ensures var m', n := Queues.Nack(m, id), m.tasks[id].queue; n in m'.queues && m'.queues[n] != [] && m'.queues[n][0] == id
  {
  }

  /** Where a NACK sends a task: to the dead letters exactly when its attempts are used up, else to the
      front of its own queue with its attempts kept. */
  lemma NackRoutes(s: System, id: TaskId, w: WorkerId)
    requires Inv(s) && s.up && id in s.b.mgr.inFlight
    ensures var t, b' := s.b.mgr.tasks[id], DoNack(s.b, id, w);
      && (t.attempts >= s.b.mgr.maxRetries <==> id in b'.store.dlq)
      && (t.attempts < s.b.mgr.maxRetries <==> Live(b'.store, id))
      && (t.attempts < s.b.mgr.maxRetries ==>
            && t.queue in b'.mgr.queues && b'.mgr.queues[t.queue] != [] && b'.mgr.queues[t.queue][0] == id
            && b'.store.tasks[id].attempts == t.attempts)
  {
    NackDelta(s.b, id, w);
    assert AgreeOn(s.b.mgr, s.b.store, id);
    assert Fates(s.b.store, s.h, id) <= 1;
    if !Exhausted(s.b.mgr, id) {
      RequeuedInFront(s.b.mgr, id);
    }
  }

  // ------------------------------------------------------ dead letter payloads

  lemma LastSeen(dlq: seq<TaskId>, id: TaskId)
    requires id !in dlq
    ensures var all := dlq + [id];
      id in (if PEEK_LIMIT < |all| then all[..PEEK_LIMIT] else all) <==> |dlq| < PEEK_LIMIT
  {
    var all := dlq + [id];
    assert all[|dlq|] == id;
    assert PEEK_LIMIT < |all| ==> all[..PEEK_LIMIT] == dlq[..PEEK_LIMIT];
  }

  /** The stored dead letter keeps its payload exactly if fewer than 100 dead letters were in memory. */
  lemma DeadLetterPayload(s: System, id: TaskId, w: WorkerId)
    requires Inv(s) && s.up && id in s.b.mgr.inFlight && Exhausted(s.b.mgr, id)
    ensures id in DoNack(s.b, id, w).store.dlq
    ensures DoNack(s.b, id, w).store.dlq[id].payload == s.h.issued[id].payload
            <==> |s.b.mgr.dlq| < PEEK_LIMIT || s.h.issued[id].payload == NO_PAYLOAD
  {
    NackDelta(s.b, id, w);
    NackWrites(s.b.mgr, id);
    StatusIsPlace(s.b.mgr, id);
    assert AgreeOn(s.b.mgr, s.b.store, id);
    assert FromOrigin(s.b.store.tasks[id], s.h);
    LastSeen(s.b.mgr.dlq, id);
  }
}
