/**
 Memory and store agree between handlers: a task is to be done in memory exactly if its row
 says so, with the same queue, payload and attempts.
 */
module Agreement {
  import opened Tasks
  import opened Queues
  import opened WalStore
  import opened Handlers
  import opened Placement

  predicate LiveTask(m: QueueState, id: TaskId) {
    id in m.tasks && (m.tasks[id].status == Pending || m.tasks[id].status == InFlight)
  }

  /** A task is pending or in flight in memory exactly if its row is pending or in flight, with the
      same queue, payload and attempts. A row may lag at in_flight after an eviction, never the reverse. */
  predicate AgreeOn(m: QueueState, st: Tables, id: TaskId) {
    && (LiveTask(m, id) <==> Live(st, id))
    && (Live(st, id) ==>
          && st.tasks[id].queue == m.tasks[id].queue
          && st.tasks[id].payload == m.tasks[id].payload
          && st.tasks[id].attempts == m.tasks[id].attempts
          && (m.tasks[id].status == InFlight ==> st.tasks[id].status == InFlight))
  }

  ghost predicate Agree(m: QueueState, st: Tables) {
    forall id :: AgreeOn(m, st, id)
  }

  // ------------------------------------------------- one task changes on both sides

  lemma PointUpdate(m: QueueState, st: Tables, m': QueueState, t: TaskRecord, r: Row)
    requires Agree(m, st) && m'.tasks == m.tasks[t.id := t]
    requires AgreeOn(m', st.(tasks := st.tasks[t.id := r]), t.id)
    ensures Agree(m', st.(tasks := st.tasks[t.id := r]))
  {
    var st' := st.(tasks := st.tasks[t.id := r]);
    forall id ensures AgreeOn(m', st', id) {
      assert AgreeOn(m, st, id);
    }
  }

  lemma PointRemove(m: QueueState, st: Tables, m': QueueState, t: TaskRecord, r: DlqRow)
    requires Agree(m, st) && m'.tasks == m.tasks[t.id := t] && t.status == DeadLettered && r.id == t.id
    ensures Agree(m', AddToDlq(st, r))
  {
    forall id ensures AgreeOn(m', AddToDlq(st, r), id) {
      assert AgreeOn(m, st, id);
    }
  }

  // ---------------------------------------------------------------- handler deltas

  lemma ConsumeDelta(b: Broker, n: QueueName, w: WorkerId)
    requires Placed(b.mgr) && Agree(b.mgr, b.store) && Delivery(b, n, w).Some?
    ensures var id, b' := Delivery(b, n, w).value, DoConsume(b, n, w);
      && id in b.mgr.tasks && b.mgr.tasks[id].id == id && b.mgr.tasks[id].status == Pending && Live(b.store, id)
      && Queued(b.mgr, id) && b.mgr.queues[b.mgr.tasks[id].queue][0] == id
      && b'.mgr.tasks == b.mgr.tasks[id := Deliver(b.mgr.tasks[id], w)]
      && b'.mgr.inFlight == b.mgr.inFlight + {id}
      && b'.store == b.store.(tasks := b.store.tasks[id :=
            b.store.tasks[id].(status := InFlight, attempts := b.store.tasks[id].attempts + 1, worker := Some(w))])
  {
    var id := Delivery(b, n, w).value;
    DequeueWrites(b.mgr, n, w);
    assert AgreeOn(b.mgr, b.store, id);
  }

  lemma ConsumeAgree(b: Broker, n: QueueName, w: WorkerId)
    requires Placed(b.mgr) && Agree(b.mgr, b.store)
    ensures Agree(DoConsume(b, n, w).mgr, DoConsume(b, n, w).store)
  {
    var b' := DoConsume(b, n, w);
    if Delivery(b, n, w).Some? {
      var id := Delivery(b, n, w).value;
      ConsumeDelta(b, n, w);
      assert AgreeOn(b.mgr, b.store, id);
      PointUpdate(b.mgr, b.store, b'.mgr, Deliver(b.mgr.tasks[id], w), b'.store.tasks[id]);
    } else {
      DequeueWrites(b.mgr, n, w);
      SameTasks(b.mgr, b.store, b'.mgr);
    }
  }

  lemma SameTasks(m: QueueState, st: Tables, m': QueueState)
    requires Agree(m, st) && m'.tasks == m.tasks
    ensures Agree(m', st)
  {
    forall id ensures AgreeOn(m', st, id) {
      assert AgreeOn(m, st, id);
    }
  }

  lemma AckAgree(b: Broker, id: TaskId, w: WorkerId)
    requires Placed(b.mgr) && Agree(b.mgr, b.store) && id in b.mgr.inFlight
    ensures Live(b.store, id)
    ensures DoAck(b, id, w).store == b.store.(tasks := b.store.tasks[id := b.store.tasks[id].(status := Done)])
    ensures Agree(DoAck(b, id, w).mgr, DoAck(b, id, w).store)
  {
    StatusIsPlace(b.mgr, id);
    assert AgreeOn(b.mgr, b.store, id);
    var b' := DoAck(b, id, w);
    PointUpdate(b.mgr, b.store, b'.mgr, b.mgr.tasks[id].(status := Done), b.store.tasks[id].(status := Done));
  }

  lemma NackDelta(b: Broker, id: TaskId, w: WorkerId)
    requires Placed(b.mgr) && Agree(b.mgr, b.store) && id in b.mgr.inFlight
    ensures Live(b.store, id) && b.mgr.tasks[id].id == id && b.mgr.tasks[id].status == InFlight
    ensures b.mgr.tasks[id].attempts >= 1
    ensures var b' := DoNack(b, id, w);
      && b'.mgr.tasks == b.mgr.tasks[id := Failed(b.mgr, id)] && b'.mgr.inFlight == b.mgr.inFlight - {id}
      && b'.store ==
         if Exhausted(b.mgr, id) then
           AddToDlq(b.store, DlqRow(id, b.mgr.tasks[id].queue, FoundPayload(b'.mgr, id), b.mgr.tasks[id].attempts))
         else b.store.(tasks := b.store.tasks[id := b.store.tasks[id].(status := Pending)])
  {
    StatusIsPlace(b.mgr, id);
    assert AgreeOn(b.mgr, b.store, id);
    NackWrites(b.mgr, id);
  }

  lemma NackAgree(b: Broker, id: TaskId, w: WorkerId)
    requires Placed(b.mgr) && Agree(b.mgr, b.store)
    ensures Agree(DoNack(b, id, w).mgr, DoNack(b, id, w).store)
  {
    if id in b.mgr.inFlight {
      NackDelta(b, id, w);
      var b' := DoNack(b, id, w);
      assert AgreeOn(b.mgr, b.store, id);
      if Exhausted(b.mgr, id) {
        PointRemove(b.mgr, b.store, b'.mgr, Failed(b.mgr, id), b'.store.dlq[id]);
      } else {
        PointUpdate(b.mgr, b.store, b'.mgr, Failed(b.mgr, id), b'.store.tasks[id]);
      }
    }
  }

  lemma IssueAgree(m: QueueState, st: Tables, t: TaskRecord)
    requires Valid(m) && Agree(m, st) && t.status == Pending
    ensures Agree(Add(m, t), SaveTask(st, t))
  {
    PointUpdate(m, st, Add(m, t), t, RowOf(t));
  }

  lemma TickAgree(m: QueueState, st: Tables, ids: seq<TaskId>)
    requires Placed(m) && Agree(m, st)
    ensures Agree(RequeueAll(m, ids), st)
  {
    RequeueAllWrites(m, ids);
    forall id ensures AgreeOn(RequeueAll(m, ids), st, id) {
      assert AgreeOn(m, st, id);
      if id in m.tasks {
        StatusIsPlace(m, id);
      }
    }
  }
}
