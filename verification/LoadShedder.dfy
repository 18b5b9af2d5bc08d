/**
 The load shedder: one bucket per queue behind `check_and_consume`, and the monitoring calls that
 refill buckets on the way past.
 */
module LoadShedder {
  import opened Tasks
  import opened Rates
  import opened Buckets

  // -------------------------------------------------------------- specification

  datatype Shedder = Shedder(buckets: map<QueueName, Bucket>, allowed: nat, rejected: nat)

  /** A produce request for a queue, or a look at its bucket, under the load signals of that moment. */
  datatype Call = Call(queue: QueueName, now: real, depth: int, latency: real, request: bool)

  function Fresh(): Shedder { Shedder(map[], 0, 0) }

  function RateOf(c: Tuning, x: Call): (rate: real)
    requires Sane(c)
    ensures rate >= c.floor
  {
    AdjustedRate(c, x.depth, x.latency)
  }

  function AccessOf(c: Tuning, x: Call): Access
    requires Sane(c)
  {
    Access(x.now, RateOf(c, x), x.request)
  }

  function BucketOf(c: Tuning, s: Shedder, q: QueueName, now: real): Bucket {
    if q in s.buckets then s.buckets[q] else Full(c.capacity, now)
  }

  predicate Allowed(c: Tuning, s: Shedder, x: Call)
    requires Sane(c)
  {
    Granted(BucketOf(c, s, x.queue, x.now), AccessOf(c, x))
  }

  function Step(c: Tuning, s: Shedder, x: Call): Shedder
    requires Sane(c)
  {
    if !x.request && x.queue !in s.buckets then s
    else
      var b := Apply(BucketOf(c, s, x.queue, x.now), AccessOf(c, x));
      Shedder(s.buckets[x.queue := b],
              s.allowed + (if Allowed(c, s, x) then 1 else 0),
              s.rejected + (if x.request && !Allowed(c, s, x) then 1 else 0))
  }

  function RunCalls(c: Tuning, s: Shedder, calls: seq<Call>): Shedder
    requires Sane(c)
    decreases |calls|
  {
    if calls == [] then s else RunCalls(c, Step(c, s, calls[0]), calls[1..])
  }

  /** How many requests for `q` the calls get through. */
  function AdmittedOn(c: Tuning, s: Shedder, calls: seq<Call>, q: QueueName): nat
    requires Sane(c)
    decreases |calls|
  {
    if calls == [] then 0
    else
      var one := if calls[0].queue == q && Allowed(c, s, calls[0]) then 1 else 0;
      one + AdmittedOn(c, Step(c, s, calls[0]), calls[1..], q)
  }

  predicate Ordered(start: real, calls: seq<Call>)
    decreases |calls|
  {
    calls == [] || (start <= calls[0].now && Ordered(calls[0].now, calls[1..]))
  }

  function End(start: real, calls: seq<Call>): real {
    if calls == [] then start else calls[|calls| - 1].now
  }

  predicate Sound(c: Tuning, s: Shedder, now: real) {
    forall q :: q in s.buckets ==> SoundBucket(c, s.buckets[q], now)
  }

  predicate SoundBucket(c: Tuning, b: Bucket, now: real) {
    Fits(b) && b.capacity == c.capacity && b.last <= now
  }

  // ------------------------------------------------------------------ isolation

  function Traffic(c: Tuning, calls: seq<Call>, q: QueueName): seq<Access>
    requires Sane(c)
  {
    if calls == [] then []
    else (if calls[0].queue == q then [AccessOf(c, calls[0])] else []) + Traffic(c, calls[1..], q)
  }

  /** A queue's bucket sees its own queue's calls and nothing else. */
  lemma {:induction false} QueuesAreIsolated(c: Tuning, s: Shedder, calls: seq<Call>, q: QueueName)
    requires Sane(c) && q in s.buckets
    ensures q in RunCalls(c, s, calls).buckets
    ensures RunCalls(c, s, calls).buckets[q] == Run(s.buckets[q], Traffic(c, calls, q))
    ensures AdmittedOn(c, s, calls, q) == Admitted(s.buckets[q], Traffic(c, calls, q))
    decreases |calls|
  {
    if calls != [] {
      QueuesAreIsolated(c, Step(c, s, calls[0]), calls[1..], q);
      var rest := Traffic(c, calls[1..], q);
      if calls[0].queue == q {
        assert Traffic(c, calls, q)[0] == AccessOf(c, calls[0]) && Traffic(c, calls, q)[1..] == rest;
      } else {
        assert Traffic(c, calls, q) == rest;
      }
    }
  }

  lemma {:induction false} TrafficTimed(c: Tuning, start: real, now: real, calls: seq<Call>, q: QueueName)
    requires Sane(c) && start <= now && Ordered(now, calls)
    ensures Timed(start, Traffic(c, calls, q), c.floor, Max(c.floor, c.base))
    ensures var t := Traffic(c, calls, q); t != [] ==> now <= t[0].now <= t[|t| - 1].now <= End(now, calls)
    decreases |calls|
  {
    if calls != [] {
      var x := calls[0];
      var rest := Traffic(c, calls[1..], q);
      RateBounds(c, x.depth, x.latency);
      if x.queue == q {
        TrafficTimed(c, x.now, x.now, calls[1..], q);
        assert Traffic(c, calls, q)[0] == AccessOf(c, x) && Traffic(c, calls, q)[1..] == rest;
        OrderedEnd(x.now, calls[1..]);
      } else {
        TrafficTimed(c, start, x.now, calls[1..], q);
        assert Traffic(c, calls, q) == rest;
      }
    }
  }

  lemma {:induction false} OrderedEnd(start: real, calls: seq<Call>)
    requires Ordered(start, calls)
    ensures start <= End(start, calls)
    decreases |calls|
  {
    if calls != [] {
      OrderedEnd(calls[0].now, calls[1..]);
    }
  }

  lemma StepSound(c: Tuning, s: Shedder, now: real, x: Call)
    requires Sane(c) && Sound(c, s, now) && now <= x.now
    ensures Sound(c, Step(c, s, x), x.now)
  {
    RateBounds(c, x.depth, x.latency);
    if x.request || x.queue in s.buckets {
      ApplyFits(BucketOf(c, s, x.queue, x.now), AccessOf(c, x));
    }
  }

  lemma {:induction false} RunSound(c: Tuning, s: Shedder, now: real, calls: seq<Call>)
    requires Sane(c) && Sound(c, s, now) && Ordered(now, calls)
    ensures Sound(c, RunCalls(c, s, calls), End(now, calls))
    decreases |calls|
  {
    if calls != [] {
      StepSound(c, s, now, calls[0]);
      RunSound(c, Step(c, s, calls[0]), calls[0].now, calls[1..]);
    }
  }

  // ------------------------------------------------------------------------ cap

  ghost predicate Capped(c: Tuning, admitted: nat, elapsed: real) {
    admitted as real <= c.capacity + Times(elapsed, Max(c.floor, c.base))
  }

  lemma CappedLonger(c: Tuning, admitted: nat, elapsed: real, elapsed': real)
    requires Sane(c) && elapsed <= elapsed' && Capped(c, admitted, elapsed)
    ensures Capped(c, admitted, elapsed')
  {
    MulMonotone(elapsed, elapsed', Max(c.floor, c.base));
  }

  lemma KnownQueueCap(c: Tuning, s: Shedder, now: real, calls: seq<Call>, q: QueueName)
    requires Sane(c) && Sound(c, s, now) && Ordered(now, calls) && q in s.buckets
    ensures Capped(c, AdmittedOn(c, s, calls, q), End(now, calls) - now)
  {
    var b, t := s.buckets[q], Traffic(c, calls, q);
    QueuesAreIsolated(c, s, calls, q);
    TrafficTimed(c, b.last, now, calls, q);
    OrderedEnd(now, calls);
    assert Times(0.0, Max(c.floor, c.base)) == 0.0;
    if t == [] {
      CappedLonger(c, 0, 0.0, End(now, calls) - now);
    } else {
      WindowCap(b, t, c.floor, Max(c.floor, c.base));
      CappedLonger(c, Admitted(b, t), t[|t| - 1].now - t[0].now, End(now, calls) - now);
    }
  }

  lemma {:induction false} QueueCap(c: Tuning, s: Shedder, now: real, calls: seq<Call>, q: QueueName)
    requires Sane(c) && Sound(c, s, now) && Ordered(now, calls)
    ensures Capped(c, AdmittedOn(c, s, calls, q), End(now, calls) - now)
    decreases |calls|
  {
    if q in s.buckets {
      KnownQueueCap(c, s, now, calls, q);
    } else if calls == [] {
      assert Times(0.0, Max(c.floor, c.base)) == 0.0;
    } else {
      var x := calls[0];
      if x.queue == q && x.request {
        var s' := s.(buckets := s.buckets[q := Full(c.capacity, x.now)]);
        assert Step(c, s', x).buckets == Step(c, s, x).buckets;
        KnownQueueCap(c, s', x.now, calls, q);
        CappedLonger(c, AdmittedOn(c, s, calls, q), End(x.now, calls) - x.now, End(now, calls) - now);
      } else {
        StepSound(c, s, now, x);
        QueueCap(c, Step(c, s, x), x.now, calls[1..], q);
        CappedLonger(c, AdmittedOn(c, s, calls, q), End(x.now, calls[1..]) - x.now, End(now, calls) - now);
      }
    }
  }

  /**
   Whatever the mix of producers, queues and monitoring calls, each queue gets through at most the burst
   capacity plus max(floor, base) a second over any stretch of the broker's life.
   */
  lemma AdmissionCap(c: Tuning, start: real, before: seq<Call>, during: seq<Call>, q: QueueName)
    requires Sane(c) && Ordered(start, before) && Ordered(End(start, before), during)
    ensures var s := RunCalls(c, Fresh(), before);
      AdmittedOn(c, s, during, q) as real
      <= c.capacity + Times(End(End(start, before), during) - End(start, before), Max(c.floor, c.base))
  {
    RunSound(c, Fresh(), start, before);
    QueueCap(c, RunCalls(c, Fresh(), before), End(start, before), during, q);
  }

  // --------------------------------------------------------------------- service

  /** The call refills the bucket of `q`. */
  predicate Touches(s: Shedder, x: Call, q: QueueName) {
    x.queue == q && (x.request || q in s.buckets)
  }

  /** Call `k` found the bucket of `q` full. */
  predicate BrimOn(c: Tuning, s: Shedder, calls: seq<Call>, k: nat, q: QueueName)
    requires Sane(c) && k < |calls|
  {
    var s', x := RunCalls(c, s, calls[..k]), calls[k];
    Touches(s', x, q) && FullAt(c, s', x)
  }

  predicate FullAt(c: Tuning, s: Shedder, x: Call)
    requires Sane(c)
  {
    Refill(BucketOf(c, s, x.queue, x.now), x.now, RateOf(c, x)).tokens == c.capacity
  }

  predicate DryOn(c: Tuning, s: Shedder, calls: seq<Call>, k: nat, q: QueueName)
    requires Sane(c)
  {
    forall j: nat :: k <= j < |calls| ==> !BrimOn(c, s, calls, j, q)
  }

  /** Call `k` is the last that found the bucket of `q` full, and `q` has been served in full since. */
  predicate ServedOn(c: Tuning, s: Shedder, calls: seq<Call>, k: nat, q: QueueName)
    requires Sane(c) && k < |calls|
  {
    && BrimOn(c, s, calls, k, q) && DryOn(c, s, calls, k + 1, q)
    && AdmittedOn(c, RunCalls(c, s, calls[..k]), calls[k..], q) as real
       > c.capacity - 1.0 + Times(calls[|calls| - 1].now - calls[k].now, c.floor)
  }

  predicate ServedFromNow(c: Tuning, s: Shedder, calls: seq<Call>, q: QueueName)
    requires Sane(c) && calls != []
  {
    q in s.buckets && DryOn(c, s, calls, 0, q)
    && AdmittedOn(c, s, calls, q) as real
       > s.buckets[q].tokens - 1.0 + Times(calls[|calls| - 1].now - s.buckets[q].last, c.floor)
  }

  ghost predicate SpentOn(c: Tuning, s: Shedder, calls: seq<Call>, q: QueueName)
    requires Sane(c) && calls != []
  {
    ServedFromNow(c, s, calls, q) || exists k: nat :: k < |calls| && ServedOn(c, s, calls, k, q)
  }

  /** The last call is a produce request for `q`, and it is refused. */
  predicate RefusedOn(c: Tuning, s: Shedder, calls: seq<Call>, q: QueueName)
    requires Sane(c) && calls != []
  {
    var n := |calls| - 1;
    calls[n].queue == q && calls[n].request && !Allowed(c, RunCalls(c, s, calls[..n]), calls[n])
  }

  lemma CallsTail(c: Tuning, s: Shedder, calls: seq<Call>, k: nat)
    requires Sane(c) && 0 < k <= |calls|
    ensures RunCalls(c, s, calls[..k]) == RunCalls(c, Step(c, s, calls[0]), calls[1..][..k - 1])
  {
    assert calls[..k][0] == calls[0] && calls[..k][1..] == calls[1..][..k - 1];
  }

  lemma DryOnShift(c: Tuning, s: Shedder, calls: seq<Call>, k: nat, q: QueueName)
    requires Sane(c) && calls != [] && DryOn(c, Step(c, s, calls[0]), calls[1..], k, q)
    ensures DryOn(c, s, calls, k + 1, q)
  {
    forall j: nat | k + 1 <= j < |calls|
      ensures !BrimOn(c, s, calls, j, q)
    {
      CallsTail(c, s, calls, j);
      assert !BrimOn(c, Step(c, s, calls[0]), calls[1..], j - 1, q);
    }
  }

  lemma ServedOnShift(c: Tuning, s: Shedder, calls: seq<Call>, k: nat, q: QueueName)
    requires Sane(c) && |calls| > 1 && k < |calls| - 1 && ServedOn(c, Step(c, s, calls[0]), calls[1..], k, q)
    ensures ServedOn(c, s, calls, k + 1, q)
  {
    CallsTail(c, s, calls, k + 1);
    assert calls[1..][k..] == calls[k + 1..];
    DryOnShift(c, s, calls, k + 1, q);
  }

  // A new bucket is found full.
  lemma NewIsFull(c: Tuning, s: Shedder, x: Call)
    requires Sane(c) && x.queue !in s.buckets
    ensures FullAt(c, s, x)
  {
    assert Times(0.0, RateOf(c, x)) == 0.0;
  }

  lemma BucketInTime(c: Tuning, s: Shedder, now: real, x: Call)
    requires Sane(c) && Sound(c, s, now) && now <= x.now
    ensures var b := BucketOf(c, s, x.queue, x.now); Fits(b) && b.capacity == c.capacity && b.last <= x.now
    ensures c.floor <= RateOf(c, x) <= Max(c.floor, c.base)
  {
    RateBounds(c, x.depth, x.latency);
  }

  lemma FirstBrimOn(c: Tuning, s: Shedder, calls: seq<Call>, q: QueueName)
    requires Sane(c) && calls != []
    ensures BrimOn(c, s, calls, 0, q) <==> Touches(s, calls[0], q) && FullAt(c, s, calls[0])
    ensures !BrimOn(c, s, calls, 0, q) && DryOn(c, s, calls, 1, q) ==> DryOn(c, s, calls, 0, q)
  {
    assert calls[..0] == [];
  }

  lemma SingleRefusalOn(c: Tuning, s: Shedder, now: real, calls: seq<Call>, q: QueueName)
    requires Sane(c) && Sound(c, s, now) && Ordered(now, calls) && |calls| == 1 && RefusedOn(c, s, calls, q)
    ensures SpentOn(c, s, calls, q)
  {
    var x := calls[0];
    assert calls[..0] == [] && calls[0..] == calls;
    FirstBrimOn(c, s, calls, q);
    BucketInTime(c, s, now, x);
    RefusalEarns(BucketOf(c, s, q, x.now), AccessOf(c, x), c.floor, Max(c.floor, c.base));
    assert AdmittedOn(c, s, calls, q) == 0;
    if FullAt(c, s, x) {
      assert ServedOn(c, s, calls, 0, q);
    } else if q !in s.buckets {
      NewIsFull(c, s, x);
    }
  }

  lemma StartOverOn(c: Tuning, s: Shedder, now: real, calls: seq<Call>, q: QueueName)
    requires Sane(c) && Sound(c, s, now) && Ordered(now, calls) && |calls| > 1
    requires Touches(s, calls[0], q) && ServedFromNow(c, Step(c, s, calls[0]), calls[1..], q)
    ensures SpentOn(c, s, calls, q)
  {
    var x, n := calls[0], |calls| - 1;
    assert calls[..0] == [] && calls[0..] == calls;
    FirstBrimOn(c, s, calls, q);
    DryOnShift(c, s, calls, 0, q);
    BucketInTime(c, s, now, x);
    AccessEarns(BucketOf(c, s, q, x.now), AccessOf(c, x), AdmittedOn(c, Step(c, s, x), calls[1..], q),
                calls[n].now - x.now, c.floor, Max(c.floor, c.base));
    if FullAt(c, s, x) {
      assert ServedOn(c, s, calls, 0, q);
    } else if q !in s.buckets {
      NewIsFull(c, s, x);
    }
  }

  // A call for another queue leaves the count as it is.
  lemma PassOver(c: Tuning, s: Shedder, calls: seq<Call>, q: QueueName)
    requires Sane(c) && |calls| > 1 && !Touches(s, calls[0], q) && ServedFromNow(c, Step(c, s, calls[0]), calls[1..], q)
    ensures ServedFromNow(c, s, calls, q)
  {
    FirstBrimOn(c, s, calls, q);
    DryOnShift(c, s, calls, 0, q);
    assert calls[0].queue != q;
  }

  lemma {:induction false} SpentOnBeforeRefusal(c: Tuning, s: Shedder, now: real, calls: seq<Call>, q: QueueName)
    requires Sane(c) && Sound(c, s, now) && calls != [] && Ordered(now, calls) && RefusedOn(c, s, calls, q)
    ensures SpentOn(c, s, calls, q)
    decreases |calls|
  {
    if |calls| == 1 {
      SingleRefusalOn(c, s, now, calls, q);
    } else {
      var s' := Step(c, s, calls[0]);
      StepSound(c, s, now, calls[0]);
      CallsTail(c, s, calls, |calls| - 1);
      SpentOnBeforeRefusal(c, s', calls[0].now, calls[1..], q);
      if ServedFromNow(c, s', calls[1..], q) {
        if Touches(s, calls[0], q) {
          StartOverOn(c, s, now, calls, q);
        } else {
          PassOver(c, s, calls, q);
        }
      } else {
        var k: nat :| k < |calls| - 1 && ServedOn(c, s', calls[1..], k, q);
        ServedOnShift(c, s, calls, k, q);
      }
    }
  }

  /**
   The other half of the promise to producers: a request for a queue is refused only if, since the last call
   that found the queue's bucket full, the queue got through more than capacity - 1 plus the floor rate times
   the time, whatever happened on other queues.
   */
  lemma AdmissionFloor(c: Tuning, start: real, calls: seq<Call>, q: QueueName)
    requires Sane(c) && calls != [] && Ordered(start, calls) && RefusedOn(c, Fresh(), calls, q)
    ensures exists k: nat :: k < |calls| && ServedOn(c, Fresh(), calls, k, q)
  {
    SpentOnBeforeRefusal(c, Fresh(), start, calls, q);
  }

  // --------------------------------------------------------------------- counters

  function RequestCount(calls: seq<Call>): nat {
    if calls == [] then 0 else (if calls[0].request then 1 else 0) + RequestCount(calls[1..])
  }

  /** Every produce request is counted once, as allowed or as rejected; looks are counted as neither. */
  lemma {:induction false} EveryRequestCounted(c: Tuning, s: Shedder, calls: seq<Call>)
    requires Sane(c)
    ensures var r := RunCalls(c, s, calls);
      r.allowed + r.rejected == s.allowed + s.rejected + RequestCount(calls)
    decreases |calls|
  {
    if calls != [] {
      EveryRequestCounted(c, Step(c, s, calls[0]), calls[1..]);
    }
  }

  // ---------------------------------------------------------------------- objects

  class TokenBucket {
    const capacity: real
    const nominalFillRate: real
    var tokens: real
    var lastRefill: real

    function View(): Bucket
      reads this
    {
      Bucket(capacity, tokens, lastRefill)
    }

    constructor (capacity: real, nominalFillRate: real, now: real)
      ensures View() == Full(capacity, now)
    {
      this.capacity := capacity;
      this.nominalFillRate := nominalFillRate;
      tokens := capacity;
      lastRefill := now;
    }

    method RefillTo(now: real, adjustedRate: real)
      modifies this
      ensures View() == Refill(old(View()), now, adjustedRate)
    {
      var elapsed := now - lastRefill;
      tokens := Min(capacity, tokens + elapsed * adjustedRate);
      lastRefill := now;
    }

    method Consume() returns (taken: bool)
      modifies this
      ensures taken == (old(tokens) >= 1.0)
      ensures View() == (if taken then old(View()).(tokens := old(tokens) - 1.0) else old(View()))
    {
      taken := tokens >= 1.0;
      if taken {
        tokens := tokens - 1.0;
      }
    }
  }

  // The refill and the withdrawal that `check_and_consume` makes on one bucket.
  method Withdraw(b: TokenBucket, now: real, adjustedRate: real) returns (taken: bool)
    modifies b
    ensures var a := Access(now, adjustedRate, true);
      taken == Granted(old(b.View()), a) && b.View() == Apply(old(b.View()), a)
  {
    b.RefillTo(now, adjustedRate);
    taken := b.Consume();
  }

  /** What the monitoring calls report for one bucket. */
  datatype Reading = Reading(tokens: real, capacity: real, adjustedRate: real)

  predicate Looked(c: Tuning, before: Bucket, after: Bucket, reading: Reading, now: real, depth: int, latency: real)
    requires Sane(c)
  {
    var rate := AdjustedRate(c, depth, latency);
    after == Refill(before, now, rate) && reading == Reading(after.tokens, after.capacity, rate)
  }

  // The refill and the reading that a monitoring call makes on one bucket.
  method Look(c: Tuning, b: TokenBucket, now: real, depth: int, latency: real) returns (reading: Reading)
    requires Sane(c)
    modifies b
    ensures Looked(c, old(b.View()), b.View(), reading, now, depth, latency)
  {
    var rate := AdjustedRate(c, depth, latency);
    b.RefillTo(now, rate);
    reading := Reading(b.tokens, b.capacity, rate);
  }

  class AdaptiveLoadShedder {
    const tuning: Tuning
    var buckets: map<QueueName, TokenBucket>
    var totalAllowed: nat
    var totalRejected: nat

    ghost predicate Valid()
      reads this
    {
      Sane(tuning) &&
      forall p, q :: p in buckets && q in buckets && p != q ==> buckets[p] != buckets[q]
    }

    ghost function Levels(): map<QueueName, Bucket>
      reads this`buckets, buckets.Values
    {
      map q | q in buckets :: buckets[q].View()
    }

    ghost function View(): Shedder
      reads this, buckets.Values
    {
      Shedder(Levels(), totalAllowed, totalRejected)
    }

    constructor (tuning: Tuning)
      requires Sane(tuning)
      ensures Valid() && View() == Fresh() && this.tuning == tuning
      ensures buckets == map[]
    {
      this.tuning := tuning;
      buckets := map[];
      totalAllowed, totalRejected := 0, 0;
    }

    method GetOrCreateBucket(q: QueueName, now: real) returns (b: TokenBucket)
      requires Valid()
      modifies this`buckets
      ensures Valid() && q in buckets && buckets[q] == b
      ensures b.View() == BucketOf(tuning, old(View()), q, now)
      ensures View() == old(View()).(buckets := old(View()).buckets[q := b.View()])
      ensures fresh(buckets.Values - old(buckets.Values))
    {
      if q !in buckets {
        b := new TokenBucket(tuning.capacity, tuning.base, now);
        buckets := buckets[q := b];
      } else {
        b := buckets[q];
      }
    }

    method Take(q: QueueName, now: real, adjustedRate: real) returns (taken: bool)
      requires Valid() && q in buckets
      modifies buckets[q]
      ensures var a, s := Access(now, adjustedRate, true), old(View());
        taken == Granted(s.buckets[q], a) && View() == s.(buckets := s.buckets[q := Apply(s.buckets[q], a)])
    {
      taken := Withdraw(buckets[q], now, adjustedRate);
    }

    method CheckAndConsume(q: QueueName, depth: int, latency: real, now: real) returns (allowed: bool, retryAfter: real)
      requires Valid()
      modifies this, buckets.Values
      ensures Valid()
      ensures allowed == Allowed(tuning, old(View()), Call(q, now, depth, latency, true))
      ensures View() == Step(tuning, old(View()), Call(q, now, depth, latency, true))
      ensures retryAfter == if allowed then 0.0 else Hint(AdjustedRate(tuning, depth, latency))
      ensures fresh(buckets.Values - old(buckets.Values))
    {
      var _ := GetOrCreateBucket(q, now);
      var adjustedRate := AdjustedRate(tuning, depth, latency);
      allowed := Take(q, now, adjustedRate);
      assert Levels() == Step(tuning, old(View()), Call(q, now, depth, latency, true)).buckets;
      if allowed {
        totalAllowed := totalAllowed + 1;
      } else {
        totalRejected := totalRejected + 1;
      }
      retryAfter := if allowed then 0.0 else 1.0 / adjustedRate;
    }

    method GetBucketInfo(q: QueueName, depth: int, latency: real, now: real) returns (info: Option<Reading>)
      requires Valid()
      modifies buckets.Values
      ensures Valid()
      ensures View() == Step(tuning, old(View()), Call(q, now, depth, latency, false))
      ensures info.Some? <==> q in old(View()).buckets
      ensures info.Some? ==>
        Looked(tuning, old(View()).buckets[q], View().buckets[q], info.value, now, depth, latency)
    {
      if q !in buckets {
        return None;
      }
      var reading := Look(tuning, buckets[q], now, depth, latency);
      info := Some(reading);
    }

    /** The statistics call refills every bucket at its own queue's rate, and counts nothing. */
    method GetStats(depth: QueueName -> int, latency: QueueName -> real, now: real) returns (readings: map<QueueName, Reading>)
      requires Valid()
      modifies buckets.Values
      ensures Valid() && readings.Keys == View().buckets.Keys == old(View()).buckets.Keys
      ensures View().allowed == old(View()).allowed && View().rejected == old(View()).rejected
      ensures forall q :: q in View().buckets ==>
        Looked(tuning, old(View()).buckets[q], View().buckets[q], readings[q], now, depth(q), latency(q))
    {
      ghost var before := Levels();
      readings := map[];
      var left := buckets.Keys;
      while left != {}
        invariant left <= buckets.Keys && readings.Keys == buckets.Keys - left
        invariant forall q :: q in left ==> buckets[q].View() == before[q]
        invariant forall q :: q in readings ==>
          Looked(tuning, before[q], buckets[q].View(), readings[q], now, depth(q), latency(q))
        decreases |left|
      {
        var q :| q in left;
        var reading := Look(tuning, buckets[q], now, depth(q), latency(q));
        readings := readings[q := reading];
        left := left - {q};
      }
    }
  }
}
