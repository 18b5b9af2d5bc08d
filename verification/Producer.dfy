/**
 The producer: exponential backoff with full jitter, the retry loop around PRODUCE, and batches.
 The broker's replies and the random draws are inputs; `replies(i)` answers the i-th request sent.
 */
module Producer {
  import opened Tasks
  import opened Rates
  import opened Buckets

  // -------------------------------------------------------------------- backoff

  datatype Policy = Policy(base: real, max: real, multiplier: real, jitter: bool, maxAttempts: int)

  function DefaultPolicy(maxAttempts: int): Policy { Policy(1.0, 60.0, 2.0, true, maxAttempts) }

  function Power(m: real, n: nat): real {
    if n == 0 then 1.0 else Times(m, Power(m, n - 1))
  }

  // The ceiling of the wait before retry number n + 1.
  function Ceiling(p: Policy, n: nat): real { Min(Times(p.base, Power(p.multiplier, n)), p.max) }

  function Delay(p: Policy, n: nat, draw: real, hint: Option<real>): real {
    var d := if p.jitter then Times(draw, Ceiling(p, n)) else Ceiling(p, n);
    if hint.Some? then Max(d, hint.value) else d
  }

  predicate Growing(p: Policy) {
    p.base >= 0.0 && p.max >= 0.0 && p.multiplier >= 1.0
  }

  lemma {:induction false} PowerAtLeastOne(m: real, n: nat)
    requires m >= 1.0
    ensures Power(m, n) >= 1.0
  {
    if n > 0 {
      PowerAtLeastOne(m, n - 1);
      MulMonotone(1.0, m, Power(m, n - 1));
    }
  }

  /** The ceilings rise from attempt to attempt and never pass the maximum. */
  lemma CeilingsRise(p: Policy, n: nat)
    requires Growing(p)
    ensures 0.0 <= Ceiling(p, n) <= Ceiling(p, n + 1) <= p.max
  {
    PowerAtLeastOne(p.multiplier, n);
    MulMonotone(1.0, p.multiplier, Power(p.multiplier, n));
    MulMonotone(Power(p.multiplier, n), Power(p.multiplier, n + 1), p.base);
    MulMonotone(0.0, Power(p.multiplier, n), p.base);
  }

  lemma Reorder(a: real, b: real, c: real)
    ensures Times(b, Times(a, c)) == Times(a, Times(b, c))
  {
  }

  /** The first ceiling is the base and each further one the multiplier times the one before, cut off at the maximum. */
  lemma CeilingsMultiply(p: Policy, n: nat)
    requires Growing(p)
    ensures Ceiling(p, 0) == Min(p.base, p.max)
    ensures Ceiling(p, n + 1) == Min(p.multiplier * Ceiling(p, n), p.max)
  {
    assert Times(p.base, 1.0) == p.base;
    CeilingsRise(p, n);
    Reorder(p.base, p.multiplier, Power(p.multiplier, n));
    MulMonotone(1.0, p.multiplier, p.max);
    assert Times(p.multiplier, Ceiling(p, n)) == p.multiplier * Ceiling(p, n);
  }

  /** The server's hint is a floor under the wait; the larger of hint and ceiling is its roof. */
  lemma DelayBounds(p: Policy, n: nat, draw: real, hint: Option<real>)
    requires Growing(p) && 0.0 <= draw <= 1.0
    ensures hint.Some? ==> hint.value <= Delay(p, n, draw, hint) <= Max(Ceiling(p, n), hint.value)
    ensures hint.None? ==> 0.0 <= Delay(p, n, draw, hint) <= Ceiling(p, n)
  {
    CeilingsRise(p, n);
    MulMonotone(draw, 1.0, Ceiling(p, n));
    MulMonotone(0.0, draw, Ceiling(p, n));
  }

  function Doublings(n: nat): (r: nat)
    ensures r >= 1
  {
    if n == 0 then 1 else 2 * Doublings(n - 1)
  }

  lemma {:induction false} PowerOfTwo(n: nat)
    ensures Power(2.0, n) == Doublings(n) as real
  {
    if n > 0 {
      PowerOfTwo(n - 1);
    }
  }

  lemma {:induction false} ManyDoublings(n: nat)
    requires n >= 6
    ensures Doublings(n) >= 64
  {
    if n > 6 {
      ManyDoublings(n - 1);
    } else {
      assert Doublings(3) == 8;
    }
  }

  /** With the defaults the ceilings are 1, 2, 4, 8, 16, 32 seconds and 60 from then on. */
  lemma DefaultCeilings(maxAttempts: int, n: nat)
    ensures Ceiling(DefaultPolicy(maxAttempts), n) == if n < 6 then Doublings(n) as real else 60.0
  {
    PowerOfTwo(n);
    if n >= 6 {
      ManyDoublings(n);
    } else {
      assert Doublings(3) == 8;
    }
  }

  /** The wait in full: without jitter the larger of ceiling and hint, with it the draw's share of the ceiling unless the hint is larger. */
  lemma DelayValues(p: Policy, n: nat, draw: real, hint: Option<real>)
    requires Growing(p)
    ensures !p.jitter && hint.None? ==> Delay(p, n, draw, hint) == Ceiling(p, n)
    ensures !p.jitter && hint.Some? ==> Delay(p, n, draw, hint) == Max(Ceiling(p, n), hint.value)
    ensures p.jitter && hint.None? ==> Delay(p, n, draw, hint) == draw * Ceiling(p, n)
    ensures p.jitter && hint.Some? && draw == 1.0 ==> Delay(p, n, draw, hint) == Max(Ceiling(p, n), hint.value)
    ensures p.jitter && hint.Some? && draw == 0.0 ==> Delay(p, n, draw, hint) == Max(0.0, hint.value)
  {
    assert Times(1.0, Ceiling(p, n)) == Ceiling(p, n) && Times(0.0, Ceiling(p, n)) == 0.0;
  }

  /** Full jitter: every wait between the hint and the ceiling comes out for some draw, so retries spread over the whole range. */
  lemma EveryWaitPossible(p: Policy, n: nat, hint: real, wait: real) returns (draw: real)
    requires Growing(p) && p.jitter && 0.0 <= hint <= wait <= Max(Ceiling(p, n), hint)
    ensures 0.0 <= draw <= 1.0 && Delay(p, n, draw, Some(hint)) == wait
  {
    var c := Ceiling(p, n);
    if wait == hint {
      draw := 0.0;
      assert Times(0.0, c) == 0.0;
    } else {
      draw := wait / c;
      DivAtMost(wait, 1.0, c);
      DivAtMost(wait, 0.0, c);
      assert Times(draw, c) == wait;
    }
  }

  /** The default waits in numbers. */
  lemma DefaultDelays(maxAttempts: int, n: nat, draw: real, hint: real)
    ensures Delay(DefaultPolicy(maxAttempts), n, draw, Some(hint)) ==
      Max(draw * (match n case 0 => 1.0 case 1 => 2.0 case 2 => 4.0 case 3 => 8.0 case 4 => 16.0 case 5 => 32.0 case _ => 60.0), hint)
  {
    DefaultCeilings(maxAttempts, n);
    if n < 6 {
      assert Doublings(3) == 8;
    }
  }

  class ExponentialBackoff {
    const policy: Policy
    var attempt: nat

    constructor (policy: Policy)
      ensures this.policy == policy && attempt == 0
    {
      this.policy := policy;
      attempt := 0;
    }

    predicate Exhausted()
      reads this
    {
      attempt >= policy.maxAttempts
    }

    /** None stands for the error raised once the attempts are used up. */
    method NextWait(retryAfter: Option<real>, draw: real) returns (wait: Option<real>)
      modifies this
      ensures wait.None? <==> old(Exhausted())
      ensures wait.None? ==> attempt == old(attempt)
      ensures wait.Some? ==> attempt == old(attempt) + 1 && wait.value == Delay(policy, old(attempt), draw, retryAfter)
    {
      if Exhausted() {
        return None;
      }
      var ceiling := Ceiling(policy, attempt);
      var delay := if policy.jitter then Times(draw, ceiling) else ceiling;
      if retryAfter.Some? {
        delay := Max(delay, retryAfter.value);
      }
      attempt := attempt + 1;
      wait := Some(delay);
    }

    method Reset()
      modifies this
      ensures attempt == 0
    {
      attempt := 0;
    }
  }

  // -------------------------------------------------------------------- produce

  /** What becomes of one request. `Lost`: the connection broke before the reply came, perhaps after the broker took the task. */
  datatype Reply =
    | Accepted(id: TaskId)
    | RateLimited(retryAfter: Option<real>)
    | Refusal(reason: string)
    | Lost(taken: Option<TaskId>)

  /** How a produce call ends: with an id, or by raising for one of three reasons. */
  datatype Outcome = Submitted(id: TaskId) | Failed(reason: string) | GaveUp | Disconnected

  const DEFAULT_HINT := 1.0

  function HintIn(r: Reply): real
    requires r.RateLimited?
  {
    if r.retryAfter.Some? then r.retryAfter.value else DEFAULT_HINT
  }

  /** A rate-limited reply makes the producer wait at least what it asks for, and a second if it names no time. */
  lemma WaitsAsAsked(p: Policy, n: nat, draw: real, r: Reply)
    requires Growing(p) && 0.0 <= draw <= 1.0 && r.RateLimited?
    ensures Delay(p, n, draw, Some(HintIn(r))) >= match r.retryAfter case Some(t) => t case None => 1.0
  {
    DelayBounds(p, n, draw, Some(HintIn(r)));
  }

  function Retries(maxRetries: int): nat { if maxRetries < 0 then 0 else maxRetries }

  predicate Limited(replies: nat -> Reply, from: nat, n: nat) {
    forall i :: from <= i < from + n ==> replies(i).RateLimited?
  }

  // The k-th wait of a produce call whose first request is request `from`.
  ghost predicate WaitsFor(p: Policy, replies: nat -> Reply, draws: nat -> real, from: nat, k: nat, wait: real) {
    replies(from + k).RateLimited? &&
    wait == Delay(p, k, draws(from + k), Some(HintIn(replies(from + k))))
  }

  ghost predicate Backed(p: Policy, replies: nat -> Reply, draws: nat -> real, from: nat, waits: seq<real>) {
    forall k :: 0 <= k < |waits| ==> WaitsFor(p, replies, draws, from, k, waits[k])
  }

  predicate Decided(replies: nat -> Reply, from: nat, sent: nat, maxRetries: int, outcome: Outcome)
    requires sent > 0
  {
    match outcome
    case Submitted(id) => replies(from + sent - 1) == Accepted(id)
    case Failed(reason) => replies(from + sent - 1) == Refusal(reason)
    case GaveUp => sent == Retries(maxRetries) + 1 && replies(from + sent - 1).RateLimited?
    case Disconnected => replies(from + sent - 1).Lost?
  }

  /** The retry loop: what it sends, how long it sleeps after each refusal, and what it reports. */
  method Produce(replies: nat -> Reply, draws: nat -> real, from: nat, maxRetries: int)
    returns (outcome: Outcome, sent: nat, waits: seq<real>)
    ensures 1 <= sent <= Retries(maxRetries) + 1 && |waits| == sent - 1
    ensures Limited(replies, from, sent - 1)
    ensures Decided(replies, from, sent, maxRetries, outcome)
    ensures outcome.GaveUp? <==> Limited(replies, from, Retries(maxRetries) + 1)
    ensures Backed(DefaultPolicy(maxRetries), replies, draws, from, waits)
  {
    var backoff := new ExponentialBackoff(DefaultPolicy(maxRetries));
    sent, waits := 0, [];
    while true
      invariant 0 <= sent <= Retries(maxRetries) && |waits| == sent && backoff.attempt == sent
      invariant backoff.policy == DefaultPolicy(maxRetries) && fresh(backoff)
      invariant Limited(replies, from, sent)
      invariant Backed(backoff.policy, replies, draws, from, waits)
      decreases Retries(maxRetries) - sent
    {
      var reply := replies(from + sent);
      sent := sent + 1;
      match reply
      case Accepted(id) =>
        backoff.Reset();
        return Submitted(id), sent, waits;
      case RateLimited(_) =>
        var wait := backoff.NextWait(Some(HintIn(reply)), draws(from + sent - 1));
        if wait.None? {
          return GaveUp, sent, waits;
        }
        assert WaitsFor(backoff.policy, replies, draws, from, |waits|, wait.value);
        waits := waits + [wait.value];
      case Refusal(reason) =>
        return Failed(reason), sent, waits;
      case Lost(_) =>
        return Disconnected, sent, waits;
    }
  }

  // ---------------------------------------------------------------- total wait

  function Sum(s: seq<real>): real {
    if s == [] then 0.0 else Sum(s[..|s| - 1]) + s[|s| - 1]
  }

  // The most, and the least, that n waits can add up to given the hints.
  ghost function Roof(p: Policy, replies: nat -> Reply, from: nat, n: nat): real
    requires Limited(replies, from, n)
  {
    if n == 0 then 0.0 else Roof(p, replies, from, n - 1) + Max(Ceiling(p, n - 1), HintIn(replies(from + n - 1)))
  }

  ghost function Floor(replies: nat -> Reply, from: nat, n: nat): real
    requires Limited(replies, from, n)
  {
    if n == 0 then 0.0 else Floor(replies, from, n - 1) + HintIn(replies(from + n - 1))
  }

  predicate Fair(draws: nat -> real, from: nat, n: nat) {
    forall i :: from <= i < from + n ==> 0.0 <= draws(i) <= 1.0
  }

  /** All the waits together: at least the hints, at most the larger of hint and ceiling each time. */
  lemma {:induction false} TotalWait(p: Policy, replies: nat -> Reply, draws: nat -> real, from: nat, waits: seq<real>)
    requires Growing(p) && Limited(replies, from, |waits|) && Fair(draws, from, |waits|)
    requires Backed(p, replies, draws, from, waits)
    ensures Floor(replies, from, |waits|) <= Sum(waits) <= Roof(p, replies, from, |waits|)
    decreases |waits|
  {
    if waits != [] {
      var n := |waits| - 1;
      assert WaitsFor(p, replies, draws, from, n, waits[n]);
      DelayBounds(p, n, draws(from + n), Some(HintIn(replies(from + n))));
      TotalWait(p, replies, draws, from, waits[..n]);
    }
  }

  // The longest the first n waits can take when no hint exceeds the first ceiling.
  function Patience(n: nat): nat {
    if n <= 6 then Doublings(n) - 1 else 63 + 60 * (n - 6)
  }

  lemma PatienceStep(n: nat)
    ensures Patience(n + 1) == Patience(n) + if n < 6 then Doublings(n) else 60
  {
    if n == 6 {
      assert Doublings(3) == 8;
    }
  }

  lemma {:induction false} RoofIsPatience(maxRetries: int, replies: nat -> Reply, from: nat, n: nat)
    requires Limited(replies, from, n) && forall i :: from <= i < from + n ==> HintIn(replies(i)) <= 1.0
    ensures Roof(DefaultPolicy(maxRetries), replies, from, n) <= Patience(n) as real
  {
    if n > 0 {
      RoofIsPatience(maxRetries, replies, from, n - 1);
      DefaultCeilings(maxRetries, n - 1);
      PatienceStep(n - 1);
    }
  }

  /**
   How long a produce call can sleep in all: with hints of at most a second (the broker's never exceed a
   fifth), n waits add up to at most 2^n - 1 seconds, and to 63 + 60 (n - 6) past the sixth.
   */
  lemma DefaultWait(maxRetries: int, replies: nat -> Reply, draws: nat -> real, from: nat, waits: seq<real>)
    requires Limited(replies, from, |waits|) && Fair(draws, from, |waits|)
    requires Backed(DefaultPolicy(maxRetries), replies, draws, from, waits)
    requires forall i :: from <= i < from + |waits| ==> HintIn(replies(i)) <= 1.0
    ensures Sum(waits) <= Patience(|waits|) as real
  {
    TotalWait(DefaultPolicy(maxRetries), replies, draws, from, waits);
    RoofIsPatience(maxRetries, replies, from, |waits|);
  }

  // -------------------------------------------------------------------- batches

  /** The task a request leaves with the broker, if any, whether or not the producer hears of it. */
  function TakenBy(r: Reply): seq<TaskId> {
    if r.Accepted? then [r.id] else if r.Lost? && r.taken.Some? then [r.taken.value] else []
  }

  /** The ids of the tasks the broker took among `n` requests, in order. */
  function Taken(replies: nat -> Reply, from: nat, n: nat): seq<TaskId> {
    if n == 0 then [] else Taken(replies, from, n - 1) + TakenBy(replies(from + n - 1))
  }

  lemma {:induction false} NoneTaken(replies: nat -> Reply, from: nat, n: nat)
    requires Limited(replies, from, n)
    ensures Taken(replies, from, n) == []
  {
    if n > 0 {
      NoneTaken(replies, from, n - 1);
    }
  }

  lemma {:induction false} TakenSplit(replies: nat -> Reply, from: nat, n: nat, m: nat)
    ensures Taken(replies, from, n + m) == Taken(replies, from, n) + Taken(replies, from + n, m)
    decreases m
  {
    if m > 0 {
      TakenSplit(replies, from, n, m - 1);
      assert from + (n + m) - 1 == from + n + m - 1;
    }
  }

  /**
   One produce call leaves exactly one task with the broker if it returns, none if the broker refused it or the
   retries ran out, and if the connection broke, whatever the last request left: never more than one.
   */
  lemma OneTask(replies: nat -> Reply, from: nat, sent: nat, maxRetries: int, outcome: Outcome)
    requires sent > 0 && Limited(replies, from, sent - 1) && Decided(replies, from, sent, maxRetries, outcome)
    ensures Taken(replies, from, sent) ==
      match outcome
      case Submitted(id) => [id]
      case Failed(_) => []
      case GaveUp => []
      case Disconnected => TakenBy(replies(from + sent - 1))
    ensures |Taken(replies, from, sent)| <= 1
  {
    NoneTaken(replies, from, sent - 1);
  }

  /** Raising is no proof that nothing was submitted: the connection can break after the broker took the task. */
  lemma RaisedButTaken(id: TaskId)
    ensures var replies := (i: nat) => Lost(Some(id));
      Limited(replies, 0, 0) && Decided(replies, 0, 1, BATCH_RETRIES, Disconnected) && Taken(replies, 0, 1) == [id]
  {
    var replies := (i: nat) => Lost(Some(id));
    assert Taken(replies, 0, 0) == [];
  }

  const BATCH_RETRIES := 10

  lemma BatchStep(replies: nat -> Reply, sent: nat, n: nat, outcome: Outcome)
    requires n > 0 && Limited(replies, sent, n - 1) && Decided(replies, sent, n, BATCH_RETRIES, outcome)
    ensures outcome.Submitted? ==> Taken(replies, 0, sent + n) == Taken(replies, 0, sent) + [outcome.id]
    ensures !outcome.Submitted? ==>
      !replies(sent + n - 1).Accepted? &&
      Taken(replies, 0, sent + n) == Taken(replies, 0, sent) + TakenBy(replies(sent + n - 1))
  {
    OneTask(replies, sent, n, BATCH_RETRIES, outcome);
    TakenSplit(replies, 0, sent, n);
  }

  /**
   A batch that returns reports one id per payload, and they are exactly the tasks the broker took, in
   order. A batch that raises has left the broker the tasks of the payloads before the failing one, and of the
   failing one too exactly if its last request was lost after the broker took it.
   */
  method ProduceBatch(replies: nat -> Reply, draws: nat -> real, payloads: seq<Payload>)
    returns (ids: Option<seq<TaskId>>, sent: nat, placed: nat)
    ensures ids.Some? ==> placed == |payloads| && |ids.value| == placed && ids.value == Taken(replies, 0, sent)
    ensures ids.None? ==> placed < |payloads| && sent > 0 && !replies(sent - 1).Accepted?
    ensures ids.None? ==> |Taken(replies, 0, sent)| == placed + |TakenBy(replies(sent - 1))|
    ensures sent <= (BATCH_RETRIES + 1) * |payloads|
  {
    var taskIds := [];
    sent := 0;
    for i := 0 to |payloads|
      invariant |taskIds| == i && taskIds == Taken(replies, 0, sent)
      invariant sent <= (BATCH_RETRIES + 1) * i
    {
      var outcome, n, _ := Produce(replies, draws, sent, BATCH_RETRIES);
      BatchStep(replies, sent, n, outcome);
      sent := sent + n;
      if !outcome.Submitted? {
        return None, sent, i;
      }
      taskIds := taskIds + [outcome.id];
    }
    ids := Some(taskIds);
    placed := |payloads|;
  }

  // ------------------------------------------------------------- with the bucket

  /**
   The two halves fit: a refused producer that sleeps as its backoff says comes back to a token, whatever
   the jitter, if nobody else was admitted meanwhile and the rate did not fall.
   */
  lemma RetryIsAdmitted(p: Policy, n: nat, draw: real, b: Bucket, refusal: Access, between: seq<Access>, retry: Access, hi: real)
    requires Growing(p) && 0.0 <= draw <= 1.0
    requires Fits(b) && b.capacity >= 1.0 && refusal.rate > 0.0 && refusal.request && retry.request
    requires Timed(b.last, [refusal], refusal.rate, hi) && !Granted(b, refusal)
    requires Timed(refusal.now, between, refusal.rate, hi) && Admitted(Apply(b, refusal), between) == 0
    requires retry.now >= Run(Apply(b, refusal), between).last && refusal.rate <= retry.rate <= hi
    requires retry.now >= refusal.now + Delay(p, n, draw, Some(Hint(refusal.rate)))
    ensures Granted(Run(Apply(b, refusal), between), retry)
  {
    DelayBounds(p, n, draw, Some(Hint(refusal.rate)));
    HintHonoured(b, refusal, between, retry, hi);
  }
}
