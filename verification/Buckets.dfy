/**
 One token bucket as a value, and what any sequence of accesses to it can and cannot admit.
 An access is either a produce request or a look by one of the monitoring calls; both refill the
 bucket first, at whatever rate the load dictates at that moment.
 */
module Buckets {
  import opened Rates

  datatype Bucket = Bucket(capacity: real, tokens: real, last: real)

  datatype Access = Access(now: real, rate: real, request: bool)

  predicate Fits(b: Bucket) {
    0.0 <= b.tokens <= b.capacity
  }

  function Full(capacity: real, now: real): Bucket { Bucket(capacity, capacity, now) }

  // What the bucket would hold if it had no rim.
  function Level(b: Bucket, now: real, rate: real): real { b.tokens + Times(now - b.last, rate) }

  function Refill(b: Bucket, now: real, rate: real): Bucket {
    b.(tokens := Min(b.capacity, Level(b, now, rate)), last := now)
  }

  predicate Granted(b: Bucket, a: Access) {
    a.request && Refill(b, a.now, a.rate).tokens >= 1.0
  }

  function Apply(b: Bucket, a: Access): Bucket {
    var r := Refill(b, a.now, a.rate);
    if Granted(b, a) then r.(tokens := r.tokens - 1.0) else r
  }

  function Run(b: Bucket, trace: seq<Access>): (r: Bucket)
    ensures r.capacity == b.capacity
    decreases |trace|
  {
    if trace == [] then b else Run(Apply(b, trace[0]), trace[1..])
  }

  function Admitted(b: Bucket, trace: seq<Access>): nat
    decreases |trace|
  {
    if trace == [] then 0
    else (if Granted(b, trace[0]) then 1 else 0) + Admitted(Apply(b, trace[0]), trace[1..])
  }

  /** Time does not run backwards and every rate lies in [lo, hi]. */
  predicate Timed(start: real, trace: seq<Access>, lo: real, hi: real)
    decreases |trace|
  {
    trace == [] ||
    (start <= trace[0].now && lo <= trace[0].rate <= hi && Timed(trace[0].now, trace[1..], lo, hi))
  }

  // ---------------------------------------------------------------- arithmetic

  lemma Split(a: real, b: real, c: real)
    ensures Times(a + b, c) == Times(a, c) + Times(b, c)
    ensures Times(c, a + b) == Times(c, a) + Times(c, b)
  {
  }

  /** Time spent at a rate in [lo, hi] earns between lo and hi tokens a second. */
  lemma Earned(elapsed: real, rate: real, lo: real, hi: real)
    requires elapsed >= 0.0 && 0.0 <= lo <= rate <= hi
    ensures 0.0 <= Times(elapsed, lo) <= Times(elapsed, rate) <= Times(elapsed, hi)
  {
    MulMonotone(lo, rate, elapsed);
    MulMonotone(rate, hi, elapsed);
    MulMonotone(0.0, lo, elapsed);
  }

  // ------------------------------------------------------------------- bounds

  lemma ApplyFits(b: Bucket, a: Access)
    requires Fits(b) && b.last <= a.now && a.rate >= 0.0
    ensures Fits(Apply(b, a)) && Apply(b, a).last == a.now
  {
    Earned(a.now - b.last, a.rate, a.rate, a.rate);
  }

  /** The token count never leaves [0, capacity], whatever the accesses and the rates. */
  lemma {:induction false} RunFits(b: Bucket, trace: seq<Access>, lo: real, hi: real)
    requires Fits(b) && 0.0 <= lo && Timed(b.last, trace, lo, hi)
    ensures Fits(Run(b, trace)) && b.last <= Run(b, trace).last
    decreases |trace|
  {
    if trace != [] {
      ApplyFits(b, trace[0]);
      RunFits(Apply(b, trace[0]), trace[1..], lo, hi);
    }
  }

  /** Admissions are paid for: what was held plus what was earned covers what was spent and what is left. */
  lemma {:induction false} PaidFor(b: Bucket, trace: seq<Access>, lo: real, hi: real)
    requires Fits(b) && 0.0 <= lo && Timed(b.last, trace, lo, hi)
    ensures Admitted(b, trace) as real + Run(b, trace).tokens <= b.tokens + Times(Run(b, trace).last - b.last, hi)
    decreases |trace|
  {
    if trace != [] {
      var a := trace[0];
      var b' := Apply(b, a);
      ApplyFits(b, a);
      PaidFor(b', trace[1..], lo, hi);
      Earned(a.now - b.last, a.rate, lo, hi);
      Split(a.now - b.last, Run(b, trace).last - a.now, hi);
    }
  }

  lemma {:induction false} RunLast(b: Bucket, trace: seq<Access>)
    requires trace != []
    ensures Run(b, trace).last == trace[|trace| - 1].now
    decreases |trace|
  {
    if |trace| > 1 {
      RunLast(Apply(b, trace[0]), trace[1..]);
    }
  }

  /** Over any stretch of accesses: at most the burst capacity plus the top rate times the stretch. */
  lemma WindowCap(b: Bucket, trace: seq<Access>, lo: real, hi: real)
    requires Fits(b) && 0.0 <= lo && trace != [] && Timed(b.last, trace, lo, hi)
    ensures Admitted(b, trace) as real <= b.capacity + Times(trace[|trace| - 1].now - trace[0].now, hi)
  {
    var a := trace[0];
    var b' := Refill(b, a.now, a.rate);
    Earned(a.now - b.last, a.rate, lo, hi);
    assert Times(0.0, a.rate) == 0.0;
    assert Refill(b', a.now, a.rate) == b';
    PaidFor(b', trace, lo, hi);
    RunFits(b', trace, lo, hi);
    RunLast(b', trace);
  }

  // ------------------------------------------------------------------ service

  /** Access `k` of the trace found the bucket full. */
  predicate Brim(b: Bucket, trace: seq<Access>, k: nat)
    requires k < |trace|
  {
    Refill(Run(b, trace[..k]), trace[k].now, trace[k].rate).tokens == b.capacity
  }

  predicate Refused(b: Bucket, trace: seq<Access>)
    requires trace != []
  {
    var n := |trace| - 1;
    trace[n].request && !Granted(Run(b, trace[..n]), trace[n])
  }

  /** Since access `k`, when it was full, the bucket has served its capacity and the floor rate, to within one token. */
  predicate ServedSince(b: Bucket, trace: seq<Access>, k: nat, lo: real)
    requires k < |trace|
  {
    Brim(b, trace, k) &&
    Admitted(Run(b, trace[..k]), trace[k..]) as real > b.capacity - 1.0 + Times(trace[|trace| - 1].now - trace[k].now, lo)
  }

  /** From access `k` on the bucket was never found full. */
  predicate DryFrom(b: Bucket, trace: seq<Access>, k: nat) {
    forall j: nat :: k <= j < |trace| ==> !Brim(b, trace, j)
  }

  /** Access `k` is the last that found the bucket full, and the bucket has paid out in full since. */
  predicate ServedSinceLastFull(b: Bucket, trace: seq<Access>, k: nat, lo: real)
    requires k < |trace|
  {
    ServedSince(b, trace, k, lo) && DryFrom(b, trace, k + 1)
  }

  predicate ServedFromStart(b: Bucket, trace: seq<Access>, lo: real)
    requires trace != []
  {
    Admitted(b, trace) as real > b.tokens - 1.0 + Times(trace[|trace| - 1].now - b.last, lo)
  }

  lemma RunTail(b: Bucket, trace: seq<Access>, k: nat)
    requires 0 < k <= |trace|
    ensures Run(b, trace[..k]) == Run(Apply(b, trace[0]), trace[1..][..k - 1])
  {
    assert trace[..k][0] == trace[0] && trace[..k][1..] == trace[1..][..k - 1];
  }

  lemma DryShift(b: Bucket, trace: seq<Access>, k: nat)
    requires trace != [] && DryFrom(Apply(b, trace[0]), trace[1..], k)
    ensures DryFrom(b, trace, k + 1)
  {
    forall j: nat | k + 1 <= j < |trace|
      ensures !Brim(b, trace, j)
    {
      RunTail(b, trace, j);
      assert !Brim(Apply(b, trace[0]), trace[1..], j - 1);
    }
  }

  lemma ServedShift(b: Bucket, trace: seq<Access>, k: nat, lo: real)
    requires |trace| > 1 && k < |trace| - 1
    requires ServedSinceLastFull(Apply(b, trace[0]), trace[1..], k, lo)
    ensures ServedSinceLastFull(b, trace, k + 1, lo)
  {
    RunTail(b, trace, k + 1);
    assert trace[1..][k..] == trace[k + 1..];
    DryShift(b, trace, k + 1);
  }

  lemma RefusedTail(b: Bucket, trace: seq<Access>)
    requires |trace| > 1 && Refused(b, trace)
    ensures Refused(Apply(b, trace[0]), trace[1..])
  {
    RunTail(b, trace, |trace| - 1);
  }

  /** One access: either it finds the bucket full, and the count starts over, or it earns at least the floor rate. */
  lemma AccessEarns(b: Bucket, a: Access, later: nat, elapsed: real, lo: real, hi: real)
    requires Fits(b) && 0.0 <= lo <= a.rate <= hi && b.last <= a.now
    requires later as real > Apply(b, a).tokens - 1.0 + Times(elapsed, lo)
    ensures var n := later + if Granted(b, a) then 1 else 0;
      if Refill(b, a.now, a.rate).tokens == b.capacity then n as real > b.capacity - 1.0 + Times(elapsed, lo)
      else n as real > b.tokens - 1.0 + Times(a.now - b.last + elapsed, lo)
  {
    Earned(a.now - b.last, a.rate, lo, hi);
    Split(a.now - b.last, elapsed, lo);
  }

  /** A bucket without a whole token satisfies the bound with nothing admitted yet. */
  lemma RefusalEarns(b: Bucket, a: Access, lo: real, hi: real)
    requires Fits(b) && 0.0 <= lo <= a.rate <= hi && b.last <= a.now && a.request && !Granted(b, a)
    ensures if Refill(b, a.now, a.rate).tokens == b.capacity then 0.0 > b.capacity - 1.0 + Times(0.0, lo)
      else 0.0 > b.tokens - 1.0 + Times(a.now - b.last, lo)
  {
    assert Times(0.0, lo) == 0.0;
    Earned(a.now - b.last, a.rate, lo, hi);
  }

  ghost predicate Spent(b: Bucket, trace: seq<Access>, lo: real)
    requires trace != []
  {
    (ServedFromStart(b, trace, lo) && DryFrom(b, trace, 0)) ||
    exists k: nat :: k < |trace| && ServedSinceLastFull(b, trace, k, lo)
  }

  lemma FirstDry(b: Bucket, trace: seq<Access>)
    requires trace != [] && DryFrom(b, trace, 1) && !Brim(b, trace, 0)
    ensures DryFrom(b, trace, 0)
  {
  }

  lemma SingleRefusal(b: Bucket, trace: seq<Access>, lo: real, hi: real)
    requires Fits(b) && 0.0 <= lo && |trace| == 1 && Timed(b.last, trace, lo, hi) && Refused(b, trace)
    ensures Spent(b, trace, lo)
  {
    assert trace[..0] == [] && trace[0..] == trace;
    assert Admitted(b, trace) == 0;
    RefusalEarns(b, trace[0], lo, hi);
    if Brim(b, trace, 0) {
      assert ServedSinceLastFull(b, trace, 0, lo);
    }
  }

  lemma StartOver(b: Bucket, trace: seq<Access>, lo: real, hi: real)
    requires Fits(b) && 0.0 <= lo && |trace| > 1 && Timed(b.last, trace, lo, hi)
    requires ServedFromStart(Apply(b, trace[0]), trace[1..], lo) && DryFrom(Apply(b, trace[0]), trace[1..], 0)
    ensures Spent(b, trace, lo)
  {
    var a, n := trace[0], |trace| - 1;
    assert trace[..0] == [] && trace[0..] == trace;
    DryShift(b, trace, 0);
    AccessEarns(b, a, Admitted(Apply(b, a), trace[1..]), trace[n].now - a.now, lo, hi);
    if Brim(b, trace, 0) {
      assert ServedSinceLastFull(b, trace, 0, lo);
    } else {
      FirstDry(b, trace);
    }
  }

  lemma {:induction false} SpentBeforeRefusal(b: Bucket, trace: seq<Access>, lo: real, hi: real)
    requires Fits(b) && 0.0 <= lo && trace != [] && Timed(b.last, trace, lo, hi) && Refused(b, trace)
    ensures Spent(b, trace, lo)
    decreases |trace|
  {
    var b' := Apply(b, trace[0]);
    ApplyFits(b, trace[0]);
    if |trace| == 1 {
      SingleRefusal(b, trace, lo, hi);
    } else {
      RefusedTail(b, trace);
      SpentBeforeRefusal(b', trace[1..], lo, hi);
      if ServedFromStart(b', trace[1..], lo) && DryFrom(b', trace[1..], 0) {
        StartOver(b, trace, lo, hi);
      } else {
        var k: nat :| k < |trace| - 1 && ServedSinceLastFull(b', trace[1..], k, lo);
        ServedShift(b, trace, k, lo);
      }
    }
  }

  lemma FullIsBrim(b: Bucket, trace: seq<Access>)
    requires trace != [] && b.tokens == b.capacity && b.last <= trace[0].now && trace[0].rate >= 0.0
    ensures Brim(b, trace, 0)
  {
    assert trace[..0] == [];
    Earned(trace[0].now - b.last, trace[0].rate, trace[0].rate, trace[0].rate);
  }

  /**
   A bucket starts full, and a request is refused only when the bucket has really been used up: since the
   last access that found it full it has admitted more than capacity - 1 plus the floor rate times the time.
   */
  lemma RefusedOnlyWhenSpent(capacity: real, start: real, trace: seq<Access>, lo: real, hi: real)
    requires capacity >= 0.0 && 0.0 <= lo && trace != []
    requires Timed(start, trace, lo, hi) && Refused(Full(capacity, start), trace)
    ensures exists k: nat :: k < |trace| && ServedSinceLastFull(Full(capacity, start), trace, k, lo)
  {
    FullIsBrim(Full(capacity, start), trace);
    SpentBeforeRefusal(Full(capacity, start), trace, lo, hi);
  }

  // ---------------------------------------------------------------- observers

  function Requests(trace: seq<Access>): seq<Access> {
    if trace == [] then []
    else if trace[0].request then [trace[0]] + Requests(trace[1..])
    else Requests(trace[1..])
  }

  /** The answers given to the produce requests, in order. */
  function Answers(b: Bucket, trace: seq<Access>): seq<bool>
    decreases |trace|
  {
    if trace == [] then []
    else (if trace[0].request then [Granted(b, trace[0])] else []) + Answers(Apply(b, trace[0]), trace[1..])
  }

  /** Two refills at one rate are one refill. */
  lemma RefillTwice(b: Bucket, t: real, t': real, rate: real)
    requires Fits(b) && b.last <= t <= t' && rate >= 0.0
    ensures Refill(Refill(b, t, rate), t', rate) == Refill(b, t', rate)
  {
    Earned(t - b.last, rate, rate, rate);
    Earned(t' - t, rate, rate, rate);
    Split(t - b.last, t' - t, rate);
  }

  lemma StaleAnswers(b: Bucket, t: real, trace: seq<Access>, rate: real)
    requires Fits(b) && b.last <= t && rate >= 0.0 && Timed(t, trace, rate, rate)
    ensures Answers(Refill(b, t, rate), trace) == Answers(b, trace)
  {
    if trace != [] {
      RefillTwice(b, t, trace[0].now, rate);
    }
  }

  lemma TimedFrom(start: real, start': real, trace: seq<Access>, lo: real, hi: real)
    requires start <= start' && Timed(start', trace, lo, hi)
    ensures Timed(start, trace, lo, hi)
  {
  }

  /** While the load signal holds still, looking at the bucket changes no producer's answer. */
  lemma {:induction false} LookingChangesNothing(b: Bucket, trace: seq<Access>, rate: real)
    requires Fits(b) && rate >= 0.0 && Timed(b.last, trace, rate, rate)
    ensures Answers(b, trace) == Answers(b, Requests(trace))
    decreases |trace|
  {
    if trace != [] {
      var a := trace[0];
      ApplyFits(b, a);
      if a.request {
        LookingChangesNothing(Apply(b, a), trace[1..], rate);
        assert Requests(trace)[0] == a && Requests(trace)[1..] == Requests(trace[1..]);
      } else {
        StaleAnswers(b, a.now, trace[1..], rate);
        TimedFrom(b.last, a.now, trace[1..], rate, rate);
        LookingChangesNothing(b, trace[1..], rate);
      }
    }
  }

  /**
   When the load signal moves, a look books the elapsed time at the rate of the moment. The next refill comes
   out the same exactly when both ways end full, no time had passed, or the two rates are equal.
   */
  lemma LookShifts(b: Bucket, t: real, looked: real, t': real, rate: real)
    requires Fits(b) && b.last <= t <= t' && looked >= 0.0 && rate >= 0.0
    ensures Refill(Refill(b, t, looked), t', rate) == Refill(b, t', rate) <==>
      (Level(b, t', rate) >= b.capacity && Level(Refill(b, t, looked), t', rate) >= b.capacity) || t == b.last || looked == rate
  {
    LookedLevel(b, t, looked, t', rate);
    if t > b.last {
      if looked < rate {
        MulStrict(looked, rate, t - b.last);
      } else if rate < looked {
        MulStrict(rate, looked, t - b.last);
      }
    }
  }

  /** A look that does not reach the rim moves what the next request finds by the difference of the rates over the time booked. */
  lemma LookedLevel(b: Bucket, t: real, looked: real, t': real, rate: real)
    requires Fits(b) && b.last <= t <= t' && looked >= 0.0 && rate >= 0.0
    ensures Level(b, t, looked) <= b.capacity ==>
      Level(Refill(b, t, looked), t', rate) == Level(b, t', rate) + Times(t - b.last, looked - rate)
    ensures Level(b, t, looked) >= b.capacity ==> Level(Refill(b, t, looked), t', rate) >= b.capacity
    ensures Times(t - b.last, looked - rate) == Times(t - b.last, looked) - Times(t - b.last, rate)
  {
    Earned(t' - t, rate, rate, rate);
    Split(t - b.last, t' - t, rate);
    Split(rate, looked - rate, t - b.last);
  }

  /**
   Whether a look changes the answer to the next request: it does not if and only if the bucket can never hold a
   whole token, or the level the request would find without the look, and the level shifted by the look, are on
   the same side of one token; a look that fills the bucket counts as a level of one.
   */
  lemma LookFlipsAnswer(b: Bucket, t: real, looked: real, request: Access)
    requires Fits(b) && b.last <= t <= request.now && looked >= 0.0 && request.rate >= 0.0 && request.request
    ensures Granted(Refill(b, t, looked), request) == Granted(b, request) <==>
      b.capacity < 1.0 ||
      (Level(b, request.now, request.rate) >= 1.0 <==>
        Level(b, t, looked) >= b.capacity ||
        Level(b, request.now, request.rate) + Times(t - b.last, looked - request.rate) >= 1.0)
  {
    LookedLevel(b, t, looked, request.now, request.rate);
  }

  /** A look at a higher rate than the request's never costs an admission, and one at a lower rate never gains one. */
  lemma LookDirection(b: Bucket, t: real, looked: real, request: Access)
    requires Fits(b) && b.last <= t <= request.now && looked >= 0.0 && request.rate >= 0.0 && request.request
    ensures looked >= request.rate && Granted(b, request) ==> Granted(Refill(b, t, looked), request)
    ensures looked <= request.rate && Granted(Refill(b, t, looked), request) ==> Granted(b, request)
  {
    var rate := request.rate;
    LookedLevel(b, t, looked, request.now, rate);
    if looked >= rate {
      MulMonotone(rate, looked, t - b.last);
    }
    if looked <= rate {
      MulMonotone(looked, rate, t - b.last);
      Earned(request.now - t, rate, rate, rate);
      Split(t - b.last, request.now - t, rate);
    }
  }

  /** Both changes happen: under a falling load a look loses a request its token, under a rising one it wins it one. */
  lemma LooksChangeAnswers()
    ensures var b, early, request := Bucket(200.0, 0.0, 0.0), Access(0.009, 5.0, false), Access(0.0105, 100.0, true);
      Answers(b, [request]) == [true] && Answers(b, [early, request]) == [false]
    ensures var b, early, request := Bucket(200.0, 0.0, 0.0), Access(0.02, 100.0, false), Access(0.03, 5.0, true);
      Answers(b, [request]) == [false] && Answers(b, [early, request]) == [true]
  {
    LookThenAsk(Bucket(200.0, 0.0, 0.0), Access(0.009, 5.0, false), Access(0.0105, 100.0, true));
    LookThenAsk(Bucket(200.0, 0.0, 0.0), Access(0.02, 100.0, false), Access(0.03, 5.0, true));
  }

  lemma LookThenAsk(b: Bucket, look: Access, request: Access)
    requires !look.request && request.request
    ensures Answers(b, [request]) == [Granted(b, request)]
    ensures Answers(b, [look, request]) == [Granted(Refill(b, look.now, look.rate), request)]
  {
    assert [look, request][1..] == [request];
    assert Answers(Apply(b, request), [request][1..]) == [];
    assert Answers(Apply(Apply(b, look), request), [request][1..]) == [];
  }

  // --------------------------------------------------------------- retry hint

  /** The hint given with a refusal at this rate: the time one token takes. */
  function Hint(rate: real): real
    requires rate > 0.0
  {
    1.0 / rate
  }

  /** With the default tuning a producer is told to wait between a hundredth and a fifth of a second. */
  lemma DefaultHint(depth: int, latency: real)
    ensures 0.01 <= Hint(AdjustedRate(DEFAULT_TUNING, depth, latency)) <= 0.2
  {
    var rate := AdjustedRate(DEFAULT_TUNING, depth, latency);
    RateBounds(DEFAULT_TUNING, depth, latency);
    HintBetween(rate);
  }

  lemma HintBetween(rate: real)
    requires 5.0 <= rate <= 100.0
    ensures 0.01 <= Hint(rate) <= 0.2
  {
    DivAtMost(1.0, 0.2, rate);
    DivAtMost(1.0, 0.01, rate);
  }

  /** While nothing is admitted the bucket earns at least the floor rate until it is full. */
  lemma {:induction false} Accrues(b: Bucket, trace: seq<Access>, lo: real, hi: real)
    requires Fits(b) && 0.0 <= lo && Timed(b.last, trace, lo, hi) && Admitted(b, trace) == 0
    ensures Run(b, trace).tokens >= Min(b.capacity, b.tokens + Times(Run(b, trace).last - b.last, lo))
    decreases |trace|
  {
    if trace != [] {
      var a := trace[0];
      ApplyFits(b, a);
      Accrues(Apply(b, a), trace[1..], lo, hi);
      RunFits(Apply(b, a), trace[1..], lo, hi);
      Earned(a.now - b.last, a.rate, lo, hi);
      Split(a.now - b.last, Run(b, trace).last - a.now, lo);
      Earned(Run(b, trace).last - a.now, lo, lo, lo);
    }
  }

  /**
   The hint is honest: after a refusal, a request made no sooner than the hint says is admitted, provided
   no other request was admitted meanwhile and the rate has not dropped below the one the hint was based on.
   */
  lemma HintHonoured(b: Bucket, refusal: Access, between: seq<Access>, retry: Access, hi: real)
    requires Fits(b) && b.capacity >= 1.0 && refusal.rate > 0.0 && retry.request
    requires Timed(b.last, [refusal], refusal.rate, hi) && !Granted(b, refusal)
    requires Timed(refusal.now, between, refusal.rate, hi) && Admitted(Apply(b, refusal), between) == 0
    requires retry.now >= Run(Apply(b, refusal), between).last && refusal.rate <= retry.rate <= hi
    requires retry.now >= refusal.now + Hint(refusal.rate)
    ensures Granted(Run(Apply(b, refusal), between), retry)
  {
    var b0 := Apply(b, refusal);
    var r := refusal.rate;
    ApplyFits(b, refusal);
    RunFits(b0, between, r, hi);
    Accrues(b0, between, r, hi);
    var b1 := Run(b0, between);
    Earned(retry.now - b1.last, retry.rate, r, hi);
    Split(b1.last - refusal.now, retry.now - b1.last, r);
    OneToken(retry.now - refusal.now, r);
  }

  lemma OneToken(elapsed: real, rate: real)
    requires rate > 0.0 && elapsed >= Hint(rate)
    ensures Times(elapsed, rate) >= 1.0
  {
    MulMonotone(Hint(rate), elapsed, rate);
    assert Times(Hint(rate), rate) == 1.0;
  }

  /** And it is no longer than it must be: from an empty bucket at a steady rate, an earlier request is refused. */
  lemma HintIsTight(b: Bucket, retry: Access)
    requires Fits(b) && b.tokens == 0.0 && b.capacity >= 1.0 && retry.request && retry.rate > 0.0 && b.last <= retry.now
    ensures Granted(b, retry) <==> retry.now >= b.last + Hint(retry.rate)
  {
    var elapsed := retry.now - b.last;
    if elapsed >= Hint(retry.rate) {
      OneToken(elapsed, retry.rate);
    } else {
      MulStrict(elapsed, Hint(retry.rate), retry.rate);
      assert Hint(retry.rate) * retry.rate == 1.0;
    }
  }
}
