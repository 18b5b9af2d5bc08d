/**
 The recovery loop: what it rebuilds in memory, what it writes to the store, and why
 it can be interrupted and repeated.
 */
module Recovery {
  import opened Tasks
  import opened Queues
  import opened WalStore
  import opened Runs
  import opened Placement
  import opened Agreement
  import opened Durability

  function RowIds(rows: seq<Row>): set<TaskId> {
    set r | r in rows :: r.id
  }

  function Recovered(r: Row, now: real): TaskRecord {
    NewTask(r.id, r.queue, r.payload, now, r.attempts)
  }

  /** rows come from the store and are live there. */
  ghost predicate Current(st: Tables, rows: seq<Row>) {
    DistinctIds(rows) && forall r :: r in rows ==> r.id in st.tasks && st.tasks[r.id] == r && LiveRow(r)
  }

  lemma TailCurrent(st: Tables, rows: seq<Row>)
    requires Current(st, rows) && rows != []
    ensures Current(UpdateStatus(st, rows[0].id, Pending, Some(rows[0].attempts), None), rows[1..])
  {
    assert rows[0] in rows;
    forall r | r in rows[1..] ensures r.id != rows[0].id && r in rows {
      var j :| 0 <= j < |rows| - 1 && rows[1..][j] == r;
      assert rows[j + 1] == r;
    }
  }

  // ------------------------------------------------------------- the store

  predicate SameButStatus(r: Row, r': Row) {
    r' == r.(status := r'.status) && (LiveRow(r) <==> LiveRow(r'))
  }

  /** Resetting rows only moves live rows between in_flight and pending. */
  lemma {:induction false} ResetOnlyStatus(st: Tables, rows: seq<Row>, id: TaskId)
    requires Current(st, rows)
    ensures id in Reset(st, rows).tasks <==> id in st.tasks
    ensures id in st.tasks ==> SameButStatus(st.tasks[id], Reset(st, rows).tasks[id])
    ensures id in st.tasks && id in RowIds(rows) ==> Reset(st, rows).tasks[id].status == Pending
    ensures id in st.tasks && id !in RowIds(rows) ==> Reset(st, rows).tasks[id] == st.tasks[id]
    ensures Reset(st, rows).dlq == st.dlq
    decreases |rows|
  {
    if rows != [] {
      assert rows[0] in rows;
      TailCurrent(st, rows);
      assert RowIds(rows) == RowIds(rows[1..]) + {rows[0].id};
      ResetOnlyStatus(UpdateStatus(st, rows[0].id, Pending, Some(rows[0].attempts), None), rows[1..], id);
    }
  }

  lemma {:induction false} ResetStore(st: Tables, h: History, rows: seq<Row>)
    requires StoreInv(st, h) && Current(st, rows)
    ensures StoreInv(Reset(st, rows), h)
    decreases |rows|
  {
    if rows != [] {
      var id := rows[0].id;
      assert rows[0] in rows;
      var r := rows[0].(status := Pending);
      RowUpdateStore(st, h, id, r);
      TailCurrent(st, rows);
      ResetStore(UpdateStatus(st, id, Pending, Some(rows[0].attempts), None), h, rows[1..]);
    }
  }

  // ------------------------------------------------------------------ memory

  /** Tasks already in memory stay, and nothing but the rows is added. */
  lemma {:induction false} RebuildKeeps(m: QueueState, rows: seq<Row>, now: real, id: TaskId)
    requires Valid(m) && DistinctIds(rows) && forall r :: r in rows ==> r.id !in m.tasks
    ensures var m' := Rebuild(m, rows, now);
      && (id in m'.tasks <==> id in m.tasks || id in RowIds(rows))
      && (id in m.tasks ==> m'.tasks[id] == m.tasks[id])
      && m'.inFlight == m.inFlight && m'.maxRetries == m.maxRetries
    decreases |rows|
  {
    if rows != [] {
      assert rows[0] in rows;
      assert RowIds(rows) == RowIds(rows[1..]) + {rows[0].id};
      TailFresh(m, rows, now);
      RebuildKeeps(Add(m, Recovered(rows[0], now)), rows[1..], now, id);
    }
  }

  /** Each row becomes a pending task with its own id, content and attempts. */
  lemma {:induction false} RebuildAdds(m: QueueState, rows: seq<Row>, now: real, k: nat)
    requires Valid(m) && DistinctIds(rows) && k < |rows| && forall r :: r in rows ==> r.id !in m.tasks
    ensures var r, m' := rows[k], Rebuild(m, rows, now); r.id in m'.tasks && m'.tasks[r.id] == Recovered(r, now)
    decreases |rows|
  {
    if k == 0 {
      RebuildAddsFirst(m, rows, now);
    } else {
      TailFresh(m, rows, now);
      RebuildAdds(Add(m, Recovered(rows[0], now)), rows[1..], now, k - 1);
      assert rows[1..][k - 1] == rows[k];
    }
  }

  lemma RebuildAddsFirst(m: QueueState, rows: seq<Row>, now: real)
    requires Valid(m) && DistinctIds(rows) && rows != [] && forall r :: r in rows ==> r.id !in m.tasks
    ensures rows[0].id in Rebuild(m, rows, now).tasks
    ensures Rebuild(m, rows, now).tasks[rows[0].id] == Recovered(rows[0], now)
  {
    TailFresh(m, rows, now);
    RebuildKeeps(Add(m, Recovered(rows[0], now)), rows[1..], now, rows[0].id);
  }

  lemma TailFresh(m: QueueState, rows: seq<Row>, now: real)
    requires Valid(m) && DistinctIds(rows) && rows != [] && forall r :: r in rows ==> r.id !in m.tasks
    ensures DistinctIds(rows[1..]) && forall r :: r in rows[1..] ==> r.id !in Add(m, Recovered(rows[0], now)).tasks
  {
    forall r | r in rows[1..] ensures r.id != rows[0].id && r in rows {
      var j :| 0 <= j < |rows| - 1 && rows[1..][j] == r;
      assert rows[j + 1] == r;
    }
  }

  lemma {:induction false} RebuildPlaced(m: QueueState, rows: seq<Row>, now: real)
    requires Placed(m) && DistinctIds(rows) && forall r :: r in rows ==> r.id !in m.tasks
    ensures Placed(Rebuild(m, rows, now))
    decreases |rows|
  {
    if rows != [] {
      assert rows[0] in rows;
      TailFresh(m, rows, now);
      AddPlaced(m, Recovered(rows[0], now));
      RebuildPlaced(Add(m, Recovered(rows[0], now)), rows[1..], now);
    }
  }

  /** The rows of a load are exactly the live rows. */
  lemma LoadCovers(st: Tables, rows: seq<Row>, id: TaskId)
    requires Keyed(st) && IsLoad(st, rows)
    ensures Live(st, id) <==> id in RowIds(rows)
  {
    if Live(st, id) {
      assert st.tasks[id] in rows;
    }
  }

  lemma RebuildAgrees(st: Tables, rows: seq<Row>, maxRetries: int, now: real)
    requires Keyed(st) && IsLoad(st, rows)
    ensures Agree(Rebuild(Empty(maxRetries), rows, now), Reset(st, rows))
  {
    var m := Rebuild(Empty(maxRetries), rows, now);
    forall id ensures AgreeOn(m, Reset(st, rows), id) {
      ResetOnlyStatus(st, rows, id);
      LoadCovers(st, rows, id);
      RebuildKeeps(Empty(maxRetries), rows, now, id);
      if id in m.tasks {
        var k :| 0 <= k < |rows| && rows[k].id == id;
        RebuildAdds(Empty(maxRetries), rows, now, k);
      }
    }
  }

  // ------------------------------------------------- what recovery rebuilds

  function QueueOf(m: QueueState, n: QueueName): seq<TaskId> {
    if n in m.queues then m.queues[n] else []
  }

  function Mine(r: Row, n: QueueName): seq<TaskId> {
    if r.queue == n then [r.id] else []
  }

  /** The ids of the rows of one queue, in row order. */
  function IdsIn(rows: seq<Row>, n: QueueName): seq<TaskId> {
    if rows == [] then [] else Mine(rows[0], n) + IdsIn(rows[1..], n)
  }

  lemma AddQueueOf(m: QueueState, r: Row, now: real, n: QueueName)
    requires Valid(m)
    ensures QueueOf(Add(m, Recovered(r, now)), n) == QueueOf(m, n) + Mine(r, n)
  {
  }

  /** Recovery rebuilds each queue as exactly its live rows, oldest first. */
  lemma {:induction false} RebuiltQueue(m: QueueState, rows: seq<Row>, now: real, n: QueueName)
    requires Valid(m)
    ensures QueueOf(Rebuild(m, rows, now), n) == QueueOf(m, n) + IdsIn(rows, n)
    decreases |rows|
  {
    if rows != [] {
      AddQueueOf(m, rows[0], now, n);
      RebuiltQueue(Add(m, Recovered(rows[0], now)), rows[1..], now, n);
      Regroup(QueueOf(m, n), Mine(rows[0], n), IdsIn(rows[1..], n));
    }
  }

  // ------------------------------------------------------------- idempotence

  function IdsOf(rows: seq<Row>): (ids: seq<TaskId>)
    ensures |ids| == |rows| && forall i :: 0 <= i < |rows| ==> ids[i] == rows[i].id
  {
    seq(|rows|, i requires 0 <= i < |rows| => rows[i].id)
  }

  ghost predicate Increasing(ids: seq<TaskId>, key: map<TaskId, real>) {
    && (forall id :: id in ids ==> id in key)
    && (forall i, j :: 0 <= i < j < |ids| ==> key[ids[i]] < key[ids[j]])
  }

  /** A set of tasks has only one listing by increasing creation time. */
  lemma {:induction false} OneListing(a: seq<TaskId>, b: seq<TaskId>, key: map<TaskId, real>)
    requires Increasing(a, key) && Increasing(b, key)
    requires forall id :: id in a <==> id in b
    ensures a == b
    decreases |a|
  {
    if a == [] {
      if b != [] {
        HeadIn(b);
      }
    } else {
      SameHead(a, b, key);
      forall id ensures id in a[1..] <==> id in b[1..] {
        TailMembers(a, key, id);
        TailMembers(b, key, id);
      }
      OneListing(a[1..], b[1..], key);
    }
  }

  lemma HeadIn(b: seq<TaskId>)
    requires b != []
    ensures b[0] in b
  {
  }

  lemma SameHead(a: seq<TaskId>, b: seq<TaskId>, key: map<TaskId, real>)
    requires Increasing(a, key) && Increasing(b, key) && a != []
    requires forall id :: id in a <==> id in b
    ensures b != [] && a[0] == b[0]
  {
    assert a[0] in a;
    assert b[0] in b;
    var i :| 0 <= i < |a| && a[i] == b[0];
    var j :| 0 <= j < |b| && b[j] == a[0];
  }

  lemma TailMembers(a: seq<TaskId>, key: map<TaskId, real>, id: TaskId)
    requires Increasing(a, key) && a != []
    ensures id in a[1..] <==> id in a && id != a[0]
  {
    if id in a && id != a[0] {
      var i :| 0 <= i < |a| && a[i] == id;
      assert a[1..][i - 1] == id;
    }
    if id in a[1..] {
      var i :| 0 <= i < |a| - 1 && a[1..][i] == id;
      assert a[i + 1] == id;
    }
  }

  ghost predicate DistinctTimes(st: Tables) {
    forall a, b :: Live(st, a) && Live(st, b) && a != b ==> st.tasks[a].createdAt != st.tasks[b].createdAt
  }

  function CreatedAt(st: Tables): map<TaskId, real> {
    map id | id in st.tasks :: st.tasks[id].createdAt
  }

  lemma LoadIncreasing(st: Tables, rows: seq<Row>)
    requires Keyed(st) && DistinctTimes(st) && IsLoad(st, rows)
    ensures Increasing(IdsOf(rows), CreatedAt(st))
  {
    var ids := IdsOf(rows);
    forall id | id in ids ensures id in CreatedAt(st) {
      var i :| 0 <= i < |rows| && ids[i] == id;
      assert rows[i] in rows;
    }
    forall i, j | 0 <= i < j < |ids| ensures CreatedAt(st)[ids[i]] < CreatedAt(st)[ids[j]] {
      assert rows[i] in rows && rows[j] in rows;
    }
  }

  lemma IdsAreRowIds(rows: seq<Row>, id: TaskId)
    ensures id in IdsOf(rows) <==> id in RowIds(rows)
  {
    if id in RowIds(rows) {
      var k :| 0 <= k < |rows| && rows[k].id == id;
      assert IdsOf(rows)[k] == id;
    }
    if id in IdsOf(rows) {
      var k :| 0 <= k < |rows| && IdsOf(rows)[k] == id;
      assert rows[k] in rows;
    }
  }

  /** The loop never reads the status of a row. */
  lemma {:induction false} StatusBlind(m: QueueState, a: seq<Row>, b: seq<Row>, now: real)
    requires Valid(m) && |a| == |b| && forall i :: 0 <= i < |a| ==> SameButStatus(a[i], b[i])
    ensures Rebuild(m, a, now) == Rebuild(m, b, now)
    decreases |a|
  {
    if a != [] {
      assert Recovered(a[0], now) == Recovered(b[0], now);
      StatusBlind(Add(m, Recovered(a[0], now)), a[1..], b[1..], now);
    }
  }

  lemma PrefixCurrent(st: Tables, rows: seq<Row>, k: nat)
    requires IsLoad(st, rows) && k <= |rows|
    ensures Current(st, rows[..k])
  {
  }

  lemma ResetKeyed(st: Tables, rows: seq<Row>)
    requires Keyed(st) && Current(st, rows)
    ensures Keyed(Reset(st, rows)) && CreatedAt(Reset(st, rows)) == CreatedAt(st)
    ensures DistinctTimes(st) ==> DistinctTimes(Reset(st, rows))
  {
    forall id ensures id in Reset(st, rows).tasks <==> id in st.tasks
              ensures id in st.tasks ==> SameButStatus(st.tasks[id], Reset(st, rows).tasks[id])
              ensures Reset(st, rows).dlq == st.dlq
    {
      ResetOnlyStatus(st, rows, id);
    }
  }

  /** A load after an interrupted recovery lists the same rows in the same order. */
  lemma ReloadSame(st: Tables, rows: seq<Row>, k: nat, again: seq<Row>)
    requires Keyed(st) && DistinctTimes(st) && IsLoad(st, rows) && k <= |rows|
    requires IsLoad(Reset(st, rows[..k]), again)
    ensures |again| == |rows| && forall i :: 0 <= i < |rows| ==> SameButStatus(rows[i], again[i])
  {
    var st' := Reset(st, rows[..k]);
    PrefixCurrent(st, rows, k);
    ResetKeyed(st, rows[..k]);
    LoadIncreasing(st, rows);
    LoadIncreasing(st', again);
    forall id ensures id in IdsOf(rows) <==> id in IdsOf(again) {
      IdsAreRowIds(rows, id);
      IdsAreRowIds(again, id);
      LoadCovers(st, rows, id);
      LoadCovers(st', again, id);
      ResetOnlyStatus(st, rows[..k], id);
    }
    OneListing(IdsOf(rows), IdsOf(again), CreatedAt(st));
    forall i | 0 <= i < |rows| ensures SameButStatus(rows[i], again[i]) {
      assert IdsOf(rows)[i] == IdsOf(again)[i];
      assert rows[i] in rows && again[i] in again;
      ResetOnlyStatus(st, rows[..k], rows[i].id);
    }
  }

  function RedatedTasks(tasks: map<TaskId, TaskRecord>, now: real): map<TaskId, TaskRecord> {
    map id | id in tasks :: tasks[id].(createdAt := now)
  }

  /** The same memory with the creation times of a recovery at another moment. */
  function Redated(m: QueueState, now: real): QueueState {
    m.(tasks := RedatedTasks(m.tasks, now))
  }

  lemma RedatedValid(m: QueueState, now: real)
    requires Valid(m)
    ensures Valid(Redated(m, now))
  {
  }

  lemma RedatedWrite(tasks: map<TaskId, TaskRecord>, id: TaskId, t: TaskRecord, now: real)
    ensures RedatedTasks(tasks[id := t], now) == RedatedTasks(tasks, now)[id := t.(createdAt := now)]
  {
  }

  lemma AddRedated(m: QueueState, r: Row, now: real, later: real)
    requires Valid(m)
    ensures Valid(Redated(m, later))
    ensures Redated(Add(m, Recovered(r, now)), later) == Add(Redated(m, later), Recovered(r, later))
  {
    RedatedValid(m, later);
    RedatedWrite(m.tasks, r.id, Recovered(r, now), later);
  }

  /** The moment of a recovery shows in the creation times and nowhere else. */
  lemma {:induction false} RebuildRedated(m: QueueState, rows: seq<Row>, now: real, later: real)
    requires Valid(m)
    ensures Valid(Redated(m, later))
    ensures Redated(Rebuild(m, rows, now), later) == Rebuild(Redated(m, later), rows, later)
    decreases |rows|
  {
    if rows != [] {
      AddRedated(m, rows[0], now, later);
      RebuildRedated(Add(m, Recovered(rows[0], now)), rows[1..], now, later);
    }
  }

  lemma RebuildTwice(rows: seq<Row>, again: seq<Row>, maxRetries: int, now: real, later: real)
    requires |again| == |rows| && forall i :: 0 <= i < |rows| ==> SameButStatus(rows[i], again[i])
    ensures Rebuild(Empty(maxRetries), again, later) == Redated(Rebuild(Empty(maxRetries), rows, now), later)
  {
    StatusBlind(Empty(maxRetries), rows, again, later);
    RebuildRedated(Empty(maxRetries), rows, now, later);
    assert Redated(Empty(maxRetries), later) == Empty(maxRetries);
  }

  lemma RebuiltFromEmpty(rows: seq<Row>, maxRetries: int, now: real, later: real, n: QueueName)
    ensures QueueOf(Redated(Rebuild(Empty(maxRetries), rows, now), later), n) == IdsIn(rows, n)
  {
    RebuiltQueue(Empty(maxRetries), rows, now, n);
  }

  /** Crashing after any prefix of the recovery loop and recovering again, at whatever time, gives the same
      memory up to creation times and the same store as one uninterrupted recovery; every queue is its
      live rows in order of creation. */
  lemma RecoveryIdempotent(st: Tables, rows: seq<Row>, k: nat, again: seq<Row>, maxRetries: int, now: real, later: real)
    requires Keyed(st) && DistinctTimes(st) && IsLoad(st, rows) && k <= |rows|
    requires IsLoad(Reset(st, rows[..k]), again)
    ensures Rebuild(Empty(maxRetries), again, later) == Redated(Rebuild(Empty(maxRetries), rows, now), later)
    ensures forall n :: QueueOf(Rebuild(Empty(maxRetries), again, later), n) == IdsIn(rows, n)
    ensures Reset(Reset(st, rows[..k]), again) == Reset(st, rows)
  {
    assert Reset(Reset(st, rows[..k]), again) == Reset(st, rows) by {
      PrefixCurrent(st, rows, k);
      ResetKeyed(st, rows[..k]);
      ResetTwice(st, rows, k, again);
    }
    assert Rebuild(Empty(maxRetries), again, later) == Redated(Rebuild(Empty(maxRetries), rows, now), later) by {
      ReloadSame(st, rows, k, again);
      RebuildTwice(rows, again, maxRetries, now, later);
    }
    forall n ensures QueueOf(Rebuild(Empty(maxRetries), again, later), n) == IdsIn(rows, n) {
      RebuiltFromEmpty(rows, maxRetries, now, later, n);
    }
  }

  lemma ResetTwice(st: Tables, rows: seq<Row>, k: nat, again: seq<Row>)
    requires Keyed(st) && IsLoad(st, rows) && k <= |rows| && IsLoad(Reset(st, rows[..k]), again) && Keyed(Reset(st, rows[..k]))
    ensures Reset(Reset(st, rows[..k]), again) == Reset(st, rows)
  {
    var st' := Reset(st, rows[..k]);
    PrefixCurrent(st, rows, k);
    var x, y := Reset(st', again).tasks, Reset(st, rows).tasks;
    forall id
      ensures id in x <==> id in y
      ensures id in x ==> x[id] == y[id]
    {
      ResetOnlyStatus(st, rows[..k], id);
      ResetOnlyStatus(st', again, id);
      ResetOnlyStatus(st, rows, id);
      LoadCovers(st, rows, id);
      LoadCovers(st', again, id);
    }
    assert x == y;
    ResetOnlyStatus(st, rows[..k], 0);
    ResetOnlyStatus(st', again, 0);
    ResetOnlyStatus(st, rows, 0);
  }
}
