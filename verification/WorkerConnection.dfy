/**
 The worker's one connection, shared by the heartbeat loop and the consume loop. Each `_send` takes the
 connection lock, writes its request, waits, and reads one response; it can be cancelled while it waits.
 The broker answers requests in the order it reads them. Calls are told apart by number.
 */
module WorkerConnection {
  import opened Tasks

  type CallId = nat

  // `sent`, `received` and `cancelled` are the history the theorems speak of.
  datatype Connection = Connection(
    lock: Option<CallId>,
    toBroker: seq<CallId>,
    fromBroker: seq<CallId>,
    sent: seq<CallId>,
    received: nat,
    cancelled: nat)

  datatype Event =
    | Write(call: CallId)
    | Answer
    | Receive(call: CallId)
    | Cancel(call: CallId)

  predicate Opened(s: Connection) {
    s.lock.None? && |s.toBroker| == |s.fromBroker| == |s.sent| == 0 && s.received == s.cancelled == 0
  }

  predicate Enabled(s: Connection, e: Event) {
    match e
    case Write(c) => s.lock.None? && c !in s.sent
    case Answer => s.toBroker != []
    case Receive(c) => s.lock == Some(c) && s.fromBroker != []
    case Cancel(c) => s.lock == Some(c)
  }

  function Step(s: Connection, e: Event): Connection
    requires Enabled(s, e)
  {
    match e
    case Write(c) => s.(lock := Some(c), toBroker := s.toBroker + [c], sent := s.sent + [c])
    case Answer => s.(toBroker := s.toBroker[1..], fromBroker := s.fromBroker + [s.toBroker[0]])
    case Receive(_) => s.(lock := None, fromBroker := s.fromBroker[1..], received := s.received + 1)
    case Cancel(_) => s.(lock := None, cancelled := s.cancelled + 1)
  }

  // The request whose response a Receive step reads.
  function Response(s: Connection): CallId
    requires s.fromBroker != []
  {
    s.fromBroker[0]
  }

  predicate Legal(s: Connection, events: seq<Event>)
    decreases |events|
  {
    events == [] || (Enabled(s, events[0]) && Legal(Step(s, events[0]), events[1..]))
  }

  function Run(s: Connection, events: seq<Event>): Connection
    requires Legal(s, events)
    decreases |events|
  {
    if events == [] then s else Run(Step(s, events[0]), events[1..])
  }

  function Cancels(events: seq<Event>): nat {
    if events == [] then 0 else (if events[0].Cancel? then 1 else 0) + Cancels(events[1..])
  }

  // ------------------------------------------------------------------ invariant

  function Holding(s: Connection): nat { if s.lock.Some? then 1 else 0 }

  // What has been sent and not read back is on the wire, in order.
  ghost predicate Unread(s: Connection) {
    |s.sent| == s.received + |s.fromBroker| + |s.toBroker| &&
    (forall k :: 0 <= k < |s.fromBroker| ==> s.fromBroker[k] == s.sent[s.received + k]) &&
    (forall k :: 0 <= k < |s.toBroker| ==> s.toBroker[k] == s.sent[s.received + |s.fromBroker| + k])
  }

  ghost predicate Inv(s: Connection) {
    NoDup(s.sent) &&
    |s.sent| == s.received + s.cancelled + Holding(s) &&
    Unread(s) &&
    (s.lock.Some? ==> s.sent[|s.sent| - 1] == s.lock.value)
  }

  lemma StepKeepsOrder(s: Connection, e: Event)
    requires Unread(s) && Enabled(s, e)
    ensures Unread(Step(s, e))
  {
    var s' := Step(s, e);
    match e
    case Write(_) =>
    case Answer =>
      assert s'.fromBroker[|s.fromBroker|] == s.toBroker[0];
    case Receive(_) =>
    case Cancel(_) =>
  }

  lemma StepKeepsInv(s: Connection, e: Event)
    requires Inv(s) && Enabled(s, e)
    ensures Inv(Step(s, e))
  {
    StepKeepsOrder(s, e);
  }

  lemma {:induction false} RunKeepsInv(s: Connection, events: seq<Event>)
    requires Inv(s) && Legal(s, events)
    ensures Inv(Run(s, events)) && Run(s, events).cancelled == s.cancelled + Cancels(events)
    decreases |events|
  {
    if events != [] {
      StepKeepsInv(s, events[0]);
      RunKeepsInv(Step(s, events[0]), events[1..]);
    }
  }

  lemma OwnIfNoneCancelled(s: Connection, call: CallId)
    requires Inv(s) && Enabled(s, Receive(call))
    ensures Response(s) == call <==> s.cancelled == 0
  {
    assert s.fromBroker[0] == s.sent[s.received];
  }

  // ------------------------------------------------------------------- theorems

  /**
   A call reads the response to its own request exactly when no call before it was cancelled between its
   write and its read. With a cancellation behind it, it reads the response of an earlier call.
   */
  lemma {:induction false} OwnResponse(s0: Connection, events: seq<Event>, call: CallId)
    requires Opened(s0) && Legal(s0, events) && Enabled(Run(s0, events), Receive(call))
    ensures Response(Run(s0, events)) == call <==> Cancels(events) == 0
  {
    RunKeepsInv(s0, events);
    OwnIfNoneCancelled(Run(s0, events), call);
  }

  /** Unread responses and unanswered requests: one for the call holding the lock, one for each cancelled call. */
  lemma {:induction false} Outstanding(s0: Connection, events: seq<Event>)
    requires Opened(s0) && Legal(s0, events)
    ensures var s := Run(s0, events);
      |s.fromBroker| + |s.toBroker| == Holding(s) + Cancels(events)
  {
    RunKeepsInv(s0, events);
  }

  /** A call that has written is never stuck: a response is there to read or the broker still has a request to answer. */
  lemma {:induction false} NeverStuck(s0: Connection, events: seq<Event>, call: CallId)
    requires Opened(s0) && Legal(s0, events) && Run(s0, events).lock == Some(call)
    ensures Enabled(Run(s0, events), Answer) || Enabled(Run(s0, events), Receive(call))
  {
    Outstanding(s0, events);
  }

  /**
   The worker closes the connection after the first cancellation, so no request is written after one.
   Under that discipline every call that completes has its own response.
   */
  predicate ClosesOnCancel(events: seq<Event>) {
    forall i, j :: 0 <= i < j < |events| && events[i].Cancel? ==> !events[j].Write?
  }

  lemma {:induction false} QuietAfterCancel(s: Connection, events: seq<Event>)
    requires Legal(s, events) && s.lock.None? && forall i :: 0 <= i < |events| ==> !events[i].Write?
    ensures Run(s, events).lock.None?
    decreases |events|
  {
    if events != [] {
      assert !events[0].Write?;
      QuietAfterCancel(Step(s, events[0]), events[1..]);
    }
  }

  lemma {:induction false} CancelEndsCalls(s: Connection, events: seq<Event>)
    requires Legal(s, events) && ClosesOnCancel(events) && Cancels(events) > 0
    ensures Run(s, events).lock.None?
    decreases |events|
  {
    if events[0].Cancel? {
      QuietAfterCancel(Step(s, events[0]), events[1..]);
    } else {
      CancelEndsCalls(Step(s, events[0]), events[1..]);
    }
  }

  lemma {:induction false} WorkerReadsItsOwn(s0: Connection, events: seq<Event>, call: CallId)
    requires Opened(s0) && Legal(s0, events) && ClosesOnCancel(events)
    requires Enabled(Run(s0, events), Receive(call))
    ensures Response(Run(s0, events)) == call
  {
    if Cancels(events) > 0 {
      CancelEndsCalls(s0, events);
    }
    OwnResponse(s0, events, call);
  }

  /** The discipline matters: one cancelled heartbeat, and the next CONSUME reads the heartbeat's response. */
  lemma CancelledThenReused()
    ensures var events, s0 := [Write(0), Cancel(0), Write(1), Answer, Answer], Connection(None, [], [], [], 0, 0);
      Opened(s0) && Legal(s0, events) && Enabled(Run(s0, events), Receive(1)) && Response(Run(s0, events)) == 0
  {
    var s0 := Connection(None, [], [], [], 0, 0);
    var s1 := Step(s0, Write(0));
    var s2 := Step(s1, Cancel(0));
    var s3 := Step(s2, Write(1));
    var s4 := Step(s3, Answer);
    var s5 := Step(s4, Answer);
    var e5: seq<Event> := [];
    assert Legal(s5, e5) && Run(s5, e5) == s5;
    assert [Answer][1..] == e5 && Legal(s4, [Answer]) && Run(s4, [Answer]) == s5;
    assert [Answer, Answer][1..] == [Answer] && Legal(s3, [Answer, Answer]) && Run(s3, [Answer, Answer]) == s5;
    var e2 := [Write(1), Answer, Answer];
    assert e2[1..] == [Answer, Answer] && Legal(s2, e2) && Run(s2, e2) == s5;
    var e1 := [Cancel(0), Write(1), Answer, Answer];
    assert e1[1..] == e2 && Legal(s1, e1) && Run(s1, e1) == s5;
    var e0 := [Write(0), Cancel(0), Write(1), Answer, Answer];
    assert e0[1..] == e1 && Legal(s0, e0) && Run(s0, e0) == s5;
    assert s5.fromBroker == [0, 1];
  }
}
