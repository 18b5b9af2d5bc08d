/**
 First deliveries happen in creation order, and every queue keeps its shape, through requests,
 evictions, crashes and recoveries, as long as creation times increase.

 Creation times are wall clock readings, so this is a condition on the run (`Clocked`), not on
 the broker. Nothing outside this module depends on it.
 */
module DeliveryOrder {
  import opened Tasks
  import opened Queues
  import opened WalStore
  import opened Handlers
  import opened Runs
  import opened Placement
  import opened Agreement
  import opened QueueShape
  import opened Durability
  import opened Recovery
  import opened CrashSafety

  // --------------------------------------------------------------- clocked runs

  predicate LaterThanAll(s: System, r: Request) {
    r.Produce? || r.Replay? ==> r.now > s.h.clock
  }

  predicate InTime(s: System, e: Event) {
    match e
    case Do(r) => LaterThanAll(s, r)
    case Crash(r, _) => LaterThanAll(s, r)
    case Recover(_, _, _) => true
  }

  /** Every creation time of the run is later than the one before. */
  ghost predicate Clocked(s: System, es: seq<Event>)
    requires Wf(s) && Legal(s, es)
    decreases |es|
  {
    es == [] || (InTime(s, es[0]) && Clocked(Step(s, es[0]), es[1..]))
  }

  // ------------------------------------------------------------------ deliveries

  /** The task whose delivery the event commits, whether or not the worker heard of it. */
  function Delivered(s: System, e: Event): set<TaskId>
    requires Wf(s)
  {
    match e
    case Do(r) => DeliveredBy(s.b, r)
    case Crash(r, k) => if k > 0 then DeliveredBy(s.b, r) else {}
    case Recover(_, _, _) => {}
  }

  function DeliveredBy(b: Broker, r: Request): set<TaskId>
    requires Valid(b.mgr)
  {
    if r.Consume? && Delivery(b, r.queue, r.worker).Some? then {Delivery(b, r.queue, r.worker).value} else {}
  }

  /** All tasks delivered at least once in the run. */
  ghost function Given(s: System, es: seq<Event>): set<TaskId>
    requires Wf(s) && Legal(s, es)
    decreases |es|
  {
    if es == [] then {} else Delivered(s, es[0]) + Given(Step(s, es[0]), es[1..])
  }

  predicate Untouched(st: Tables, id: TaskId) {
    Live(st, id) && st.tasks[id].attempts == 0
  }

  // ------------------------------------------------------------------- invariant

  ghost predicate Times(h: History) {
    && (forall id :: id in h.issued ==> h.issued[id].born <= h.clock)
    && (forall a, b :: a in h.issued && b in h.issued && a != b ==> h.issued[a].born != h.issued[b].born)
  }

  /** A delivered task is older than one of its queue that never was. */
  predicate InTurn(h: History, given: set<TaskId>, x: TaskId, y: TaskId) {
    x in h.issued && y in h.issued && h.issued[x].queue == h.issued[y].queue && x in given && y !in given
    ==> h.issued[x].born < h.issued[y].born
  }

  predicate GivenOn(st: Tables, h: History, given: set<TaskId>, id: TaskId) {
    id in h.issued ==> (id in given <==> !Untouched(st, id))
  }

  ghost predicate Turns(st: Tables, h: History, given: set<TaskId>) {
    && Times(h)
    && (forall id :: GivenOn(st, h, given, id))
    && (forall x, y :: InTurn(h, given, x, y))
  }

  ghost predicate OrderInv(s: System, given: set<TaskId>) {
    Turns(s.b.store, s.h, given) && (s.up ==> Shaped(s.b.mgr, s.h))
  }

  /** Only the origins, the clock and which rows are untouched matter. */
  lemma TurnsFrame(st: Tables, h: History, st': Tables, h': History, given: set<TaskId>)
    requires Turns(st, h, given) && h'.issued == h.issued && h'.clock == h.clock
    requires forall id :: id in h.issued ==> (Untouched(st', id) <==> Untouched(st, id))
    ensures Turns(st', h', given)
  {
    forall id ensures GivenOn(st', h', given, id) {
      assert GivenOn(st, h, given, id);
    }
    forall x, y ensures InTurn(h', given, x, y) {
      assert InTurn(h, given, x, y);
    }
  }

  // ---------------------------------------------------------------------- issuing

  lemma IssueTurns(st: Tables, h: History, given: set<TaskId>, st': Tables, h': History, t: TaskRecord)
    requires Turns(st, h, given) && t.id !in h.issued && t.id !in given && t.status == Pending && t.attempts == 0
    requires t.createdAt > h.clock && h'.clock == t.createdAt
    requires h'.issued == h.issued[t.id := Origin(t.queue, t.payload, t.createdAt)]
    requires st'.tasks == st.tasks[t.id := RowOf(t)]
    ensures Turns(st', h', given)
  {
    forall id ensures GivenOn(st', h', given, id) {
      assert GivenOn(st, h, given, id);
    }
    forall x, y ensures InTurn(h', given, x, y) {
      assert InTurn(h, given, x, y);
    }
  }

  lemma IssueShaped(m: QueueState, h: History, h': History, t: TaskRecord)
    requires Placed(m) && m.tasks.Keys <= h.issued.Keys && Times(h) && Shaped(m, h)
    requires t.id !in h.issued && t.attempts == 0 && t.createdAt > h.clock
    requires h'.issued == h.issued[t.id := Origin(t.queue, t.payload, t.createdAt)]
    ensures Shaped(Add(m, t), h')
  {
    AddShaped(m, h, h', t);
  }

  // -------------------------------------------------------------------- delivering

  lemma UntouchedWaits(b: Broker, h: History, y: TaskId)
    requires MemoryInv(b, h) && Untouched(b.store, y)
    ensures y in b.mgr.tasks && b.mgr.tasks[y].status == Pending && b.mgr.tasks[y].attempts == 0
    ensures b.mgr.tasks[y].queue == b.store.tasks[y].queue
  {
    assert AgreeOn(b.mgr, b.store, y);
    StatusIsPlace(b.mgr, y);
  }

  /** The task handed out is older than every other untouched task of its queue. */
  lemma DeliveredIsOldest(b: Broker, h: History, n: QueueName, w: WorkerId, given: set<TaskId>, y: TaskId)
    requires MemoryInv(b, h) && StoreInv(b.store, h) && Shaped(b.mgr, h) && Turns(b.store, h, given)
    requires Delivery(b, n, w).Some? && y in h.issued
    ensures InTurn(h, given + {Delivery(b, n, w).value}, Delivery(b, n, w).value, y)
  {
    var id := Delivery(b, n, w).value;
    ConsumeDelta(b, n, w);
    assert AgreeOn(b.mgr, b.store, id) && GivenOn(b.store, h, given, id) && GivenOn(b.store, h, given, y);
    assert InTurn(h, given, id, y);
    RowIsIssued(b.store, h, id);
    if Untouched(b.store, y) && y != id && h.issued[y].queue == h.issued[id].queue && Untouched(b.store, id) {
      RowIsIssued(b.store, h, y);
      UntouchedWaits(b, h, y);
      FrontIsOldest(b.mgr, h, id, y);
    }
  }

  lemma ConsumeTurns(b: Broker, h: History, n: QueueName, w: WorkerId, given: set<TaskId>)
    requires MemoryInv(b, h) && StoreInv(b.store, h) && Shaped(b.mgr, h) && Turns(b.store, h, given)
    requires Delivery(b, n, w).Some?
    ensures Turns(DoConsume(b, n, w).store, h, given + {Delivery(b, n, w).value})
  {
    var id, st' := Delivery(b, n, w).value, DoConsume(b, n, w).store;
    forall x ensures GivenOn(st', h, given + {id}, x) {
      assert GivenOn(b.store, h, given, x);
      DeliveredTouches(b, h, n, w, given, x);
    }
    forall x, y ensures InTurn(h, given + {id}, x, y) {
      assert InTurn(h, given, x, y);
      if x == id && y in h.issued {
        DeliveredIsOldest(b, h, n, w, given, y);
      }
    }
  }

  lemma DeliveredTouches(b: Broker, h: History, n: QueueName, w: WorkerId, given: set<TaskId>, x: TaskId)
    requires Placed(b.mgr) && Agree(b.mgr, b.store) && Delivery(b, n, w).Some? && GivenOn(b.store, h, given, x)
    ensures GivenOn(DoConsume(b, n, w).store, h, given + {Delivery(b, n, w).value}, x)
  {
    ConsumeDelta(b, n, w);
  }

  lemma ConsumeOrder(s: System, n: QueueName, w: WorkerId, given: set<TaskId>)
    requires Inv(s) && s.up && OrderInv(s, given)
    ensures OrderInv(Serve(s, Consume(n, w)), given + DeliveredBy(s.b, Consume(n, w)))
  {
    var s' := Serve(s, Consume(n, w));
    if n != "" {
      ConsumeShaped(s.b.mgr, s.h, n, w);
    }
    if Delivery(s.b, n, w).Some? {
      ConsumeTurns(s.b, s.h, n, w, given);
    } else {
      assert given + DeliveredBy(s.b, Consume(n, w)) == given;
    }
  }

  // -------------------------------------------------------------------- other steps

  lemma ProduceOrder(s: System, r: Request, given: set<TaskId>)
    requires Inv(s) && s.up && Allowed(s, r) && r.Produce? && LaterThanAll(s, r) && OrderInv(s, given) && given <= s.h.issued.Keys
    ensures OrderInv(Serve(s, r), given)
  {
    if r.queue != "" {
      var t, s' := NewTask(r.id, r.queue, r.payload, r.now, 0), Serve(s, r);
      IssueTurns(s.b.store, s.h, given, s'.b.store, s'.h, t);
      IssueShaped(s.b.mgr, s.h, s'.h, t);
    }
  }

  lemma ReplayOrder(s: System, r: Request, given: set<TaskId>)
    requires Inv(s) && s.up && Allowed(s, r) && r.Replay? && LaterThanAll(s, r) && OrderInv(s, given) && given <= s.h.issued.Keys
    ensures OrderInv(Serve(s, r), given)
  {
    if r.id in s.b.store.dlq {
      var d, s' := s.b.store.dlq[r.id], Serve(s, r);
      var t := NewTask(r.newId, d.queue, d.payload, r.now, 0);
      IssueTurns(s.b.store, s.h, given, s'.b.store, s'.h, t);
      IssueShaped(s.b.mgr, s.h, s'.h, t);
    }
  }

  /** An answered task had been delivered, and stays so. */
  lemma AckUntouched(b: Broker, id: TaskId, w: WorkerId, x: TaskId)
    requires Placed(b.mgr) && Agree(b.mgr, b.store)
    ensures Untouched(DoAck(b, id, w).store, x) <==> Untouched(b.store, x)
  {
    if id in b.mgr.inFlight {
      StatusIsPlace(b.mgr, id);
      assert AgreeOn(b.mgr, b.store, id);
      AckAgree(b, id, w);
    }
  }

  lemma NackUntouched(b: Broker, id: TaskId, w: WorkerId, x: TaskId)
    requires Placed(b.mgr) && Agree(b.mgr, b.store)
    ensures Untouched(DoNack(b, id, w).store, x) <==> Untouched(b.store, x)
  {
    if id in b.mgr.inFlight {
      assert AgreeOn(b.mgr, b.store, id);
      NackDelta(b, id, w);
    }
  }

  lemma AnswerTurns(b: Broker, h: History, h': History, r: Request, given: set<TaskId>)
    requires MemoryInv(b, h) && (r.Ack? || r.Nack?) && Turns(b.store, h, given)
    requires h'.issued == h.issued && h'.clock == h.clock
    ensures Turns(Handle(b, r).store, h', given)
  {
    forall x | x in h.issued ensures Untouched(Handle(b, r).store, x) <==> Untouched(b.store, x) {
      if r.Ack? {
        AckUntouched(b, r.id, r.worker, x);
      } else {
        NackUntouched(b, r.id, r.worker, x);
      }
    }
    TurnsFrame(b.store, h, Handle(b, r).store, h', given);
  }

  lemma AnswerShaped(b: Broker, h: History, h': History, r: Request)
    requires MemoryInv(b, h) && (r.Ack? || r.Nack?) && Shaped(b.mgr, h) && h'.issued == h.issued
    ensures Shaped(Handle(b, r).mgr, h')
  {
    if r.Ack? {
      AckShaped(b.mgr, h, r.id);
    } else {
      NackShaped(b.mgr, h, r.id);
    }
    ShapedCounters(Handle(b, r).mgr, h, h');
  }

  lemma AnswerOrder(s: System, r: Request, given: set<TaskId>)
    requires Inv(s) && s.up && (r.Ack? || r.Nack?) && OrderInv(s, given)
    ensures OrderInv(Serve(s, r), given)
  {
    var h' := Note(s.b, s.h, r);
    AnswerIssues(s.b, s.h, r);
    AnswerTurns(s.b, s.h, h', r, given);
    AnswerShaped(s.b, s.h, h', r);
  }

  lemma AnswerIssues(b: Broker, h: History, r: Request)
    requires Valid(b.mgr) && (r.Ack? || r.Nack?)
    ensures Note(b, h, r).issued == h.issued && Note(b, h, r).clock == h.clock
  {
  }

  lemma TickOrder(s: System, now: real, ids: seq<TaskId>, given: set<TaskId>)
    requires Inv(s) && s.up && OrderInv(s, given)
    ensures OrderInv(Serve(s, Tick(now, ids)), given)
  {
    var s' := Serve(s, Tick(now, ids));
    TurnsFrame(s.b.store, s.h, s'.b.store, s'.h, given);
    TickShaped(s.b.mgr, s.h, ids);
    ShapedCounters(s'.b.mgr, s.h, s'.h);
  }

  lemma QuietOrder(s: System, r: Request, given: set<TaskId>)
    requires Inv(s) && s.up && (r.Join? || r.Beat? || r.PurgeDlq?) && OrderInv(s, given)
    ensures OrderInv(Serve(s, r), given)
  {
    var s' := Serve(s, r);
    TurnsFrame(s.b.store, s.h, s'.b.store, s'.h, given);
    ShapedCounters(s'.b.mgr, s.h, s'.h);
  }

  lemma ServeOrder(s: System, r: Request, given: set<TaskId>)
    requires Inv(s) && s.up && Allowed(s, r) && LaterThanAll(s, r) && OrderInv(s, given) && given <= s.h.issued.Keys
    ensures OrderInv(Serve(s, r), given + DeliveredBy(s.b, r))
  {
    if !r.Consume? {
      assert given + DeliveredBy(s.b, r) == given;
    }
    match r
    case Produce(_, _, _, _) => ProduceOrder(s, r, given);
    case Consume(n, w) => ConsumeOrder(s, n, w, given);
    case Ack(_, _) => AnswerOrder(s, r, given);
    case Nack(_, _) => AnswerOrder(s, r, given);
    case Join(_, _) => QuietOrder(s, r, given);
    case Beat(_, _) => QuietOrder(s, r, given);
    case Tick(now, ids) => TickOrder(s, now, ids, given);
    case Replay(_, _, _) => ReplayOrder(s, r, given);
    case PurgeDlq(_) => QuietOrder(s, r, given);
  }

  // ----------------------------------------------------------- crash and recovery

  lemma UnansweredTurns(s: System, r: Request, k: nat, given: set<TaskId>)
    requires Inv(s) && s.up && Allowed(s, r) && k <= |Commits(s.b, r)| && LaterThanAll(s, r)
    requires OrderInv(s, given) && given <= s.h.issued.Keys
    ensures var s' := Unanswered(s, r, k);
      Turns(s'.b.store, s'.h, given + if k > 0 then DeliveredBy(s.b, r) else {})
  {
    if k == 0 {
      assert given + {} == given;
    } else if k == |Commits(s.b, r)| {
      ServeOrder(s, r, given);
      FinishedTurns(s, r, given + DeliveredBy(s.b, r));
    } else {
      TwoCommits(s.b, r);
      assert given + DeliveredBy(s.b, r) == given;
      TornTurns(s, r.id, given);
    }
  }

  lemma FinishedTurns(s: System, r: Request, given: set<TaskId>)
    requires Wf(s) && Turns(Serve(s, r).b.store, Serve(s, r).h, given)
    ensures Turns(Finished(s, r).b.store, Finished(s, r).h, given)
  {
    var a, b := Serve(s, r), Finished(s, r);
    TurnsFrame(a.b.store, a.h, b.b.store, b.h, given);
  }

  lemma TornTurns(s: System, id: TaskId, given: set<TaskId>)
    requires Turns(s.b.store, s.h, given)
    ensures Turns(Torn(s, id).b.store, Torn(s, id).h, given)
  {
    TurnsFrame(s.b.store, s.h, Torn(s, id).b.store, Torn(s, id).h, given);
  }

  lemma CrashOrder(s: System, r: Request, k: nat, given: set<TaskId>)
    requires Inv(s) && Enabled(s, Crash(r, k)) && LaterThanAll(s, r) && OrderInv(s, given) && given <= s.h.issued.Keys
    ensures OrderInv(Step(s, Crash(r, k)), given + Delivered(s, Crash(r, k)))
  {
    var s1, s' := Unanswered(s, r, k), Step(s, Crash(r, k));
    UnansweredTurns(s, r, k, given);
    TurnsFrame(s1.b.store, s1.h, s'.b.store, s'.h, given + Delivered(s, Crash(r, k)));
  }

  /** r may join the back of a queue that holds t. */
  predicate Follows(h: History, attempts: nat, born: real, r: Row) {
    && (r.attempts > 0 ==> attempts > 0)
    && (r.attempts == 0 && attempts == 0 ==> born < Born(h, r.id))
  }

  ghost predicate RowsFollow(h: History, rows: seq<Row>) {
    forall i, j :: 0 <= i < j < |rows| && rows[i].queue == rows[j].queue ==>
      Follows(h, rows[i].attempts, Born(h, rows[i].id), rows[j])
  }

  ghost predicate RowsFollowMemory(m: QueueState, h: History, rows: seq<Row>) {
    forall id, r :: id in m.tasks && r in rows && m.tasks[id].queue == r.queue ==>
      Follows(h, m.tasks[id].attempts, Born(h, id), r)
  }

  lemma FollowTail(m: QueueState, h: History, rows: seq<Row>, now: real)
    requires Valid(m) && rows != [] && RowsFollow(h, rows) && RowsFollowMemory(m, h, rows)
    ensures RowsFollow(h, rows[1..]) && RowsFollowMemory(Add(m, Recovered(rows[0], now)), h, rows[1..])
  {
    var m' := Add(m, Recovered(rows[0], now));
    forall id, r | id in m'.tasks && r in rows[1..] && m'.tasks[id].queue == r.queue
      ensures Follows(h, m'.tasks[id].attempts, Born(h, id), r)
    {
      var j :| 0 <= j < |rows| - 1 && rows[1..][j] == r;
      assert rows[j + 1] == r && r in rows;
    }
  }

  lemma AddRowShaped(m: QueueState, h: History, r: Row, now: real)
    requires Placed(m) && Shaped(m, h) && r.id !in m.tasks
    requires forall id :: id in m.tasks && m.tasks[id].queue == r.queue ==> Follows(h, m.tasks[id].attempts, Born(h, id), r)
    ensures Shaped(Add(m, Recovered(r, now)), h)
  {
    AddShaped(m, h, h, Recovered(r, now));
  }

  lemma {:induction false} RebuildShaped(m: QueueState, h: History, rows: seq<Row>, now: real)
    requires Placed(m) && Shaped(m, h) && DistinctIds(rows) && (forall r :: r in rows ==> r.id !in m.tasks)
    requires RowsFollow(h, rows) && RowsFollowMemory(m, h, rows)
    ensures Shaped(Rebuild(m, rows, now), h)
    decreases |rows|
  {
    if rows != [] {
      assert rows[0] in rows;
      TailFresh(m, rows, now);
      FollowTail(m, h, rows, now);
      AddPlaced(m, Recovered(rows[0], now));
      AddRowShaped(m, h, rows[0], now);
      RebuildShaped(Add(m, Recovered(rows[0], now)), h, rows[1..], now);
    }
  }

  /** Rows sorted by creation time are in queue shape. */
  lemma LoadFollows(st: Tables, h: History, rows: seq<Row>, given: set<TaskId>)
    requires StoreInv(st, h) && Turns(st, h, given) && IsLoad(st, rows)
    ensures RowsFollow(h, rows)
  {
    forall i, j | 0 <= i < j < |rows| && rows[i].queue == rows[j].queue
      ensures Follows(h, rows[i].attempts, Born(h, rows[i].id), rows[j])
    {
      var a, b := rows[i], rows[j];
      assert a in rows && b in rows;
      RowIsIssued(st, h, a.id);
      RowIsIssued(st, h, b.id);
      assert GivenOn(st, h, given, a.id) && GivenOn(st, h, given, b.id) && InTurn(h, given, b.id, a.id);
    }
  }

  lemma RestartOrder(s: System, rows: seq<Row>, done: nat, now: real, given: set<TaskId>)
    requires Inv(s) && !s.up && IsLoad(s.b.store, rows) && done <= |rows| && OrderInv(s, given)
    ensures OrderInv(Restart(s, rows, done, now), given)
  {
    var s' := Restart(s, rows, done, now);
    PrefixCurrent(s.b.store, rows, done);
    forall id | id in s.h.issued ensures Untouched(s'.b.store, id) <==> Untouched(s.b.store, id) {
      ResetOnlyStatus(s.b.store, rows[..done], id);
    }
    TurnsFrame(s.b.store, s.h, s'.b.store, s'.h, given);
    if done == |rows| {
      LoadFollows(s.b.store, s.h, rows, given);
      EmptyPlaced(s.b.mgr.maxRetries);
      RebuildShaped(Empty(s.b.mgr.maxRetries), s.h, rows, now);
    }
  }

  lemma EmptyPlaced(maxRetries: int)
    ensures Placed(Empty(maxRetries))
  {
  }

  // ------------------------------------------------------------------------ runs

  lemma NoteIssues(b: Broker, h: History, r: Request)
    requires Valid(b.mgr)
    ensures h.issued.Keys <= Note(b, h, r).issued.Keys
  {
  }

  lemma StepIssues(s: System, e: Event)
    requires Wf(s) && Enabled(s, e)
    ensures s.h.issued.Keys <= Step(s, e).h.issued.Keys
  {
    match e
    case Do(r) => NoteIssues(s.b, s.h, r);
    case Crash(r, k) => NoteIssues(s.b, s.h, r);
    case Recover(_, _, _) =>
  }

  lemma DeliveredIssued(s: System, e: Event)
    requires Inv(s) && Enabled(s, e)
    ensures Delivered(s, e) <= s.h.issued.Keys
  {
    match e
    case Do(r) => DeliveredByIssued(s, r);
    case Crash(r, _) => DeliveredByIssued(s, r);
    case Recover(_, _, _) =>
  }

  lemma DeliveredByIssued(s: System, r: Request)
    requires Inv(s) && s.up
    ensures DeliveredBy(s.b, r) <= s.h.issued.Keys
  {
    if r.Consume? && Delivery(s.b, r.queue, r.worker).Some? {
      ConsumeDelta(s.b, r.queue, r.worker);
    }
  }

  lemma StepOrder(s: System, e: Event, given: set<TaskId>)
    requires Inv(s) && Enabled(s, e) && InTime(s, e) && OrderInv(s, given) && given <= s.h.issued.Keys
    ensures OrderInv(Step(s, e), given + Delivered(s, e))
  {
    match e
    case Do(r) => ServeOrder(s, r, given);
    case Crash(r, k) => CrashOrder(s, r, k, given);
    case Recover(rows, done, now) =>
      RestartOrder(s, rows, done, now, given);
      assert given + Delivered(s, e) == given;
  }

  lemma {:induction false} RunOrder(s: System, es: seq<Event>, given: set<TaskId>)
    requires Inv(s) && Legal(s, es) && Clocked(s, es) && OrderInv(s, given) && given <= s.h.issued.Keys
    ensures Inv(Run(s, es)) && OrderInv(Run(s, es), given + Given(s, es))
    decreases |es|
  {
    if es == [] {
      assert given + Given(s, es) == given;
    } else {
      var more := Delivered(s, es[0]);
      StepKeeps(s, es[0]);
      StepOrder(s, es[0], given);
      DeliveredIssued(s, es[0]);
      StepIssues(s, es[0]);
      RunOrder(Step(s, es[0]), es[1..], given + more);
      Union(given, more, Given(Step(s, es[0]), es[1..]));
    }
  }

  lemma Union(a: set<TaskId>, b: set<TaskId>, c: set<TaskId>)
    ensures a + b + c == a + (b + c)
  {
  }

  lemma ReachableOrder(maxRetries: int, es: seq<Event>)
    requires Legal(Initial(maxRetries), es) && Clocked(Initial(maxRetries), es)
    ensures Inv(Run(Initial(maxRetries), es)) && OrderInv(Run(Initial(maxRetries), es), Given(Initial(maxRetries), es))
  {
    var s := Initial(maxRetries);
    InitialInv(maxRetries);
    forall id ensures GivenOn(s.b.store, s.h, {}, id) {
    }
    forall x, y ensures InTurn(s.h, {}, x, y) {
    }
    RunOrder(s, es, {});
    assert {} + Given(s, es) == Given(s, es);
  }

  /** In every queue, attempted tasks stand before never-attempted ones, which stand in creation order. */
  lemma QueuesKeepShape(maxRetries: int, es: seq<Event>, n: QueueName, i: nat, j: nat)
    requires Legal(Initial(maxRetries), es) && Clocked(Initial(maxRetries), es)
    requires var m := Run(Initial(maxRetries), es).b.mgr; n in m.queues && i < j < |m.queues[n]|
    ensures var s := Run(Initial(maxRetries), es);
      var a, b := s.b.mgr.queues[n][i], s.b.mgr.queues[n][j];
      && a in s.b.mgr.tasks && b in s.b.mgr.tasks && a in s.h.issued && b in s.h.issued
      && (s.b.mgr.tasks[b].attempts > 0 ==> s.b.mgr.tasks[a].attempts > 0)
      && (s.b.mgr.tasks[a].attempts == 0 ==> s.h.issued[a].born < s.h.issued[b].born)
  {
    ReachableOrder(maxRetries, es);
    var s := Run(Initial(maxRetries), es);
    var q := s.b.mgr.queues[n];
    QueueIsPending(s.b.mgr, n, i);
    QueueIsPending(s.b.mgr, n, j);
    assert Before(s.b.mgr.tasks, s.h, q[i], q[j]);
  }

  /**
   First deliveries happen in creation order: every task of a queue that was ever delivered, whatever became
   of it since, is older than every task of that queue that never was; and the latter are exactly the tasks
   still waiting with no attempt.
   */
  lemma DeliveredAreOlder(maxRetries: int, es: seq<Event>, x: TaskId, y: TaskId)
    requires Legal(Initial(maxRetries), es) && Clocked(Initial(maxRetries), es)
    requires var h := Run(Initial(maxRetries), es).h;
      x in h.issued && y in h.issued && h.issued[x].queue == h.issued[y].queue
    requires x in Given(Initial(maxRetries), es) && y !in Given(Initial(maxRetries), es)
    ensures var s := Run(Initial(maxRetries), es);
      s.h.issued[x].born < s.h.issued[y].born && Untouched(s.b.store, y) && !Untouched(s.b.store, x)
  {
    ReachableOrder(maxRetries, es);
    var s, given := Run(Initial(maxRetries), es), Given(Initial(maxRetries), es);
    assert GivenOn(s.b.store, s.h, given, x) && GivenOn(s.b.store, s.h, given, y) && InTurn(s.h, given, x, y);
  }
}
