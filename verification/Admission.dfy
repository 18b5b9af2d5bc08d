/**
 The whole of PRODUCE: the fields are checked, the load shedder is asked under the queue's own depth, and
 only then is the task queued and saved.
 */
module Admission {
  import opened Tasks
  import opened Queues
  import opened Handlers
  import opened Placement
  import Conservation
  import Buckets
  import LS = LoadShedder
  import BS = BrokerServer

  function Depth(m: QueueState, n: QueueName): nat { if n in m.queues then |m.queues[n]| else 0 }

  /** The depth signal is the number of tasks of the queue that wait to be handed out. */
  lemma DepthCountsWaiting(m: QueueState, n: QueueName)
    requires Placed(m)
    ensures Depth(m, n) == |set id | id in m.tasks && m.tasks[id].status == Pending && m.tasks[id].queue == n|
  {
    var waiting := set id | id in m.tasks && m.tasks[id].status == Pending && m.tasks[id].queue == n;
    var q := if n in m.queues then m.queues[n] else [];
    forall i, j | 0 <= i < j < |q| ensures q[i] != q[j] {
      if q[i] == q[j] {
        NoRepeats(m, n, i, j);
      }
    }
    Conservation.SetOfDistinct(q);
    forall id ensures id in waiting <==> id in Elems(q) {
      WaitingIsQueued(m, n, id);
    }
    assert waiting == Elems(q);
  }

  lemma WaitingIsQueued(m: QueueState, n: QueueName, id: TaskId)
    requires Placed(m)
    ensures n in m.queues && id in m.queues[n] <==> id in m.tasks && m.tasks[id].status == Pending && m.tasks[id].queue == n
  {
    if n in m.queues && id in m.queues[n] {
      var i :| 0 <= i < |m.queues[n]| && m.queues[n][i] == id;
      QueueIsPending(m, n, i);
    } else if id in m.tasks {
      StatusIsPlace(m, id);
    }
  }

  /** The call that PRODUCE makes on the load shedder. */
  function Asked(b: Broker, queue: QueueName, now: real, latency: real): LS.Call {
    LS.Call(queue, now, Depth(b.mgr, queue), latency, true)
  }

  // The shedder's turn: the broker does not move.
  method Ask(server: BS.Server, shedder: LS.AdaptiveLoadShedder, queue: QueueName, now: real, latency: real)
    returns (allowed: bool, retryAfter: real)
    requires server.Valid() && shedder.Valid()
    modifies shedder, shedder.buckets.Values
    ensures server.Valid() && server.View() == old(server.View())
    ensures var s, x := old(shedder.View()), Asked(old(server.View()), queue, now, latency);
      && shedder.View() == LS.Step(shedder.tuning, s, x)
      && allowed == LS.Allowed(shedder.tuning, s, x)
      && retryAfter == if allowed then 0.0 else Buckets.Hint(LS.RateOf(shedder.tuning, x))
    ensures fresh(shedder.buckets.Values - old(shedder.buckets.Values))
  {
    var depth := if queue in server.manager.queues then |server.manager.queues[queue]| else 0;
    allowed, retryAfter := shedder.CheckAndConsume(queue, depth, latency, now);
  }

  // The broker's turn: the shedder does not move.
  method Enter(server: BS.Server, shedder: LS.AdaptiveLoadShedder, queue: QueueName, payload: Payload,
               id: TaskId, now: real, allowed: bool, retryAfter: real)
    returns (r: BS.Response)
    requires server.Valid() && queue != "" && id !in server.manager.objects
    modifies server.manager, server.store
    ensures shedder.View() == old(shedder.View())
    ensures if allowed then r == BS.Accepted(id) && server.View() == DoProduce(old(server.View()), queue, payload, id, now)
            else r == BS.RateLimited(retryAfter) && server.View() == old(server.View())
  {
    r := server.HandleProduce(queue, Some(payload), id, now, allowed, retryAfter);
  }

  /** A request that is answered ok spent a token of its queue's bucket; one that is refused left the broker untouched. */
  method ServeProduce(server: BS.Server, shedder: LS.AdaptiveLoadShedder, queue: QueueName, payload: Option<Payload>,
                      id: TaskId, now: real, latency: real)
    returns (r: BS.Response)
    requires server.Valid() && shedder.Valid() && id !in server.manager.objects
    modifies server.manager, server.store, shedder, shedder.buckets.Values
    ensures queue == "" || payload.None? ==>
      r == BS.Error && server.View() == old(server.View()) && shedder.View() == old(shedder.View())
    ensures queue != "" && payload.Some? ==>
      var b, s := old(server.View()), old(shedder.View());
      var x := Asked(b, queue, now, latency);
      && shedder.View() == LS.Step(shedder.tuning, s, x)
      && if LS.Allowed(shedder.tuning, s, x)
         then r == BS.Accepted(id) && server.View() == DoProduce(b, queue, payload.value, id, now)
         else r == BS.RateLimited(Buckets.Hint(LS.RateOf(shedder.tuning, x))) && server.View() == b
  {
    if queue == "" || payload.None? {
      return BS.Error;
    }
    var allowed, retryAfter := Ask(server, shedder, queue, now, latency);
    r := Enter(server, shedder, queue, payload.value, id, now, allowed, retryAfter);
  }
}
