/**
 The persistent store: two committed tables. Each writing operation is one transaction.
 */
module WalStore {
  import opened Tasks

  datatype Row = Row(
    id: TaskId, queue: QueueName, payload: Payload, status: Status,
    attempts: nat, worker: Option<WorkerId>, createdAt: real)

  datatype DlqRow = DlqRow(id: TaskId, queue: QueueName, payload: Payload, attempts: nat)

  datatype Tables = Tables(tasks: map<TaskId, Row>, dlq: map<TaskId, DlqRow>)

  function RowOf(t: TaskRecord): Row {
    Row(t.id, t.queue, t.payload, t.status, t.attempts, t.worker, t.createdAt)
  }

  predicate LiveRow(r: Row) {
    r.status == Pending || r.status == InFlight
  }

  predicate Live(s: Tables, id: TaskId) {
    id in s.tasks && LiveRow(s.tasks[id])
  }

  ghost predicate Keyed(s: Tables) {
    && (forall id :: id in s.tasks ==> s.tasks[id].id == id)
    && (forall id :: id in s.dlq ==> s.dlq[id].id == id)
  }

  function SaveTask(s: Tables, t: TaskRecord): Tables {
    s.(tasks := s.tasks[t.id := RowOf(t)])
  }

  /** Fields given as None keep their value; an unknown id changes nothing. */
  function UpdateStatus(s: Tables, id: TaskId, status: Status, attempts: Option<nat>, worker: Option<WorkerId>): Tables {
    if id !in s.tasks then s
    else
      var r := s.tasks[id];
      var a := if attempts.Some? then attempts.value else r.attempts;
      var w := if worker.Some? then worker else r.worker;
      s.(tasks := s.tasks[id := r.(status := status, attempts := a, worker := w)])
  }

  /** Insert into one table and delete from the other in one transaction. */
  function AddToDlq(s: Tables, r: DlqRow): Tables {
    s.(dlq := s.dlq[r.id := r], tasks := s.tasks - {r.id})
  }

  function DropDlq(s: Tables, id: TaskId): Tables {
    s.(dlq := s.dlq - {id})
  }

  /** A missing or empty queue name purges everything. */
  predicate PurgeHits(r: DlqRow, queue: Option<QueueName>) {
    queue.None? || queue.value == "" || r.queue == queue.value
  }

  function PurgedIds(s: Tables, queue: Option<QueueName>): set<TaskId> {
    set id | id in s.dlq && PurgeHits(s.dlq[id], queue)
  }

  function PurgeDlq(s: Tables, queue: Option<QueueName>): Tables {
    s.(dlq := s.dlq - PurgedIds(s, queue))
  }

  lemma RemovedCount(m: map<TaskId, DlqRow>, gone: set<TaskId>)
    requires gone <= m.Keys
    ensures |m - gone| == |m| - |gone|
  {
    assert (m - gone).Keys == m.Keys - gone;
    assert |m.Keys - gone| == |m.Keys| - |gone|;
  }

  /** What a purge deletes: the dead letters of the queue it names, or all of them if it names none. */
  lemma PurgeExactly(s: Tables, queue: Option<QueueName>)
    ensures var after := PurgeDlq(s, queue);
      && after.tasks == s.tasks
      && (forall id :: id in after.dlq ==> id in s.dlq && after.dlq[id] == s.dlq[id])
      && (queue.None? || queue == Some("") ==> after.dlq == map[])
      && (queue.Some? && queue.value != "" ==>
            forall id :: id in s.dlq ==> (id in after.dlq <==> s.dlq[id].queue != queue.value))
      && |PurgedIds(s, queue)| == |s.dlq| - |after.dlq|
  {
    RemovedCount(s.dlq, PurgedIds(s, queue));
  }

  // ------------------------------------------------------ load_pending_tasks

  ghost predicate Sorted(rows: seq<Row>) {
    forall i, j :: 0 <= i < j < |rows| ==> rows[i].createdAt <= rows[j].createdAt
  }

  ghost predicate DistinctIds(rows: seq<Row>) {
    forall i, j :: 0 <= i < j < |rows| ==> rows[i].id != rows[j].id
  }

  /** rows lists exactly the live rows, each once, oldest first; ties are in any order. */
  ghost predicate IsLoad(s: Tables, rows: seq<Row>) {
    && DistinctIds(rows)
    && Sorted(rows)
    && (forall r :: r in rows ==> r.id in s.tasks && s.tasks[r.id] == r && LiveRow(r))
    && (forall id :: Live(s, id) ==> s.tasks[id] in rows)
  }

  function Insert(rows: seq<Row>, r: Row): seq<Row> {
    if rows == [] || r.createdAt < rows[0].createdAt then [r] + rows
    else [rows[0]] + Insert(rows[1..], r)
  }

  lemma {:induction false} InsertCorrect(rows: seq<Row>, r: Row)
    requires Sorted(rows) && DistinctIds(rows) && forall x :: x in rows ==> x.id != r.id
    ensures Sorted(Insert(rows, r)) && DistinctIds(Insert(rows, r))
    ensures forall x :: x in Insert(rows, r) <==> x in rows || x == r
  {
    if !(rows == [] || r.createdAt < rows[0].createdAt) {
      InsertCorrect(rows[1..], r);
      var tail := Insert(rows[1..], r);
      forall j | 0 <= j < |tail| ensures rows[0].createdAt <= tail[j].createdAt && rows[0].id != tail[j].id {
        assert tail[j] in rows[1..] || tail[j] == r;
      }
    }
  }

  class WALStore {
    var tasks: map<TaskId, Row>
    var dlq: map<TaskId, DlqRow>
    ghost var log: seq<Tables>     // the tables after each commit

    ghost function View(): Tables
      reads this`tasks, this`dlq
    {
      Tables(tasks, dlq)
    }

    /** Open a database that already holds these committed rows. */
    constructor (tasks: map<TaskId, Row>, dlq: map<TaskId, DlqRow>)
      ensures View() == Tables(tasks, dlq) && log == []
    {
      this.tasks, this.dlq, log := tasks, dlq, [];
    }

    method Save(t: TaskRecord)
      modifies this
      ensures View() == SaveTask(old(View()), t) && log == old(log) + [View()]
    {
      tasks := tasks[t.id := RowOf(t)];
      log := log + [View()];
    }

    method Update(id: TaskId, status: Status, attempts: Option<nat>, worker: Option<WorkerId>) returns (found: bool)
      modifies this
      ensures View() == UpdateStatus(old(View()), id, status, attempts, worker) && log == old(log) + [View()]
      ensures found == (id in old(tasks))
    {
      found := id in tasks;
      if found {
        var r := tasks[id];
        if attempts.Some? && worker.Some? {
          tasks := tasks[id := r.(status := status, attempts := attempts.value, worker := worker)];
        } else if attempts.Some? {
          tasks := tasks[id := r.(status := status, attempts := attempts.value)];
        } else if worker.Some? {
          tasks := tasks[id := r.(status := status, worker := worker)];
        } else {
          tasks := tasks[id := r.(status := status)];
        }
      }
      log := log + [View()];
    }

    method MoveToDlq(r: DlqRow)
      modifies this
      ensures View() == AddToDlq(old(View()), r) && log == old(log) + [View()]
    {
      dlq := dlq[r.id := r];
      tasks := tasks - {r.id};
      log := log + [View()];
    }

    method ReplayDlq(id: TaskId) returns (row: Option<DlqRow>)
      modifies this
      ensures View() == DropDlq(old(View()), id)
      ensures row == if id in old(dlq) then Some(old(dlq)[id]) else None
      ensures log == old(log) + if id in old(dlq) then [View()] else []
    {
      if id in dlq {
        row := Some(dlq[id]);
        dlq := dlq - {id};
        log := log + [View()];
      } else {
        row := None;
        assert dlq - {id} == dlq;
      }
    }

    method Purge(queue: Option<QueueName>) returns (count: nat)
      modifies this
      ensures View() == PurgeDlq(old(View()), queue) && log == old(log) + [View()]
      ensures count == |old(dlq)| - |dlq|
      ensures forall id :: id in old(dlq) ==>
        (id in dlq <==> queue.Some? && queue.value != "" && old(dlq)[id].queue != queue.value)
    {
      PurgeExactly(View(), queue);
      var gone := set id | id in dlq && PurgeHits(dlq[id], queue);
      count := |gone|;
      dlq := dlq - gone;
      log := log + [View()];
    }

    method LoadPendingTasks() returns (rows: seq<Row>)
      requires Keyed(View())
      ensures IsLoad(View(), rows)
    {
      rows := [];
      var todo := set id | id in tasks && LiveRow(tasks[id]);
      while todo != {}
        invariant todo <= tasks.Keys && forall id :: id in todo ==> LiveRow(tasks[id])
        invariant DistinctIds(rows) && Sorted(rows)
        invariant forall r :: r in rows ==> r.id in tasks && tasks[r.id] == r && LiveRow(r) && r.id !in todo
        invariant forall id :: id in tasks && LiveRow(tasks[id]) ==> id in todo || tasks[id] in rows
        decreases todo
      {
        var id :| id in todo;
        InsertCorrect(rows, tasks[id]);
        rows := Insert(rows, tasks[id]);
        todo := todo - {id};
      }
    }
  }
}
