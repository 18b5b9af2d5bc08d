/**
 The metrics collector's two computed figures: throughput from a pruned deque of acknowledgement times,
 and latency percentiles from a bounded buffer of samples.
 */
module Metrics {
  import opened Tasks

  const WINDOW := 10.0
  const MAX_SAMPLES := 1000

  predicate Ascending(s: seq<real>) {
    forall i, j :: 0 <= i <= j < |s| ==> s[i] <= s[j]
  }

  // ------------------------------------------------------------------ throughput

  /** How many of the recorded times are no older than the cutoff. */
  function CountSince(s: seq<real>, cutoff: real): nat {
    if s == [] then 0 else CountSince(s[..|s| - 1], cutoff) + if s[|s| - 1] >= cutoff then 1 else 0
  }

  lemma {:induction false} CountSplit(s: seq<real>, t: seq<real>, cutoff: real)
    ensures CountSince(s + t, cutoff) == CountSince(s, cutoff) + CountSince(t, cutoff)
    decreases |t|
  {
    if t == [] {
      assert s + t == s;
    } else {
      assert (s + t)[..|s + t| - 1] == s + t[..|t| - 1];
      CountSplit(s, t[..|t| - 1], cutoff);
    }
  }

  lemma {:induction false} CountNone(s: seq<real>, cutoff: real)
    requires forall i :: 0 <= i < |s| ==> s[i] < cutoff
    ensures CountSince(s, cutoff) == 0
  {
    if s != [] {
      CountNone(s[..|s| - 1], cutoff);
    }
  }

  lemma {:induction false} CountAll(s: seq<real>, cutoff: real)
    requires forall i :: 0 <= i < |s| ==> s[i] >= cutoff
    ensures CountSince(s, cutoff) == |s|
  {
    if s != [] {
      CountAll(s[..|s| - 1], cutoff);
    }
  }

  // The two sequences hold equally many times from any cutoff on, down to the given one.
  ghost predicate SameSince(all: seq<real>, kept: seq<real>, from: real) {
    forall cutoff :: cutoff >= from ==> CountSince(all, cutoff) == CountSince(kept, cutoff)
  }

  lemma SameWithoutHead(all: seq<real>, kept: seq<real>, from: real)
    requires SameSince(all, kept, from) && kept != [] && kept[0] < from
    ensures SameSince(all, kept[1..], from)
  {
    forall cutoff | cutoff >= from
      ensures CountSince(all, cutoff) == CountSince(kept[1..], cutoff)
    {
      assert kept == kept[..1] + kept[1..];
      CountSplit(kept[..1], kept[1..], cutoff);
      CountNone(kept[..1], cutoff);
    }
  }

  lemma SameAppended(all: seq<real>, kept: seq<real>, x: real, from: real)
    requires SameSince(all, kept, from)
    ensures SameSince(all + [x], kept + [x], from)
  {
    forall cutoff | cutoff >= from
      ensures CountSince(all + [x], cutoff) == CountSince(kept + [x], cutoff)
    {
      CountSplit(all, [x], cutoff);
      CountSplit(kept, [x], cutoff);
    }
  }

  // A deque that stands for everything recorded up to the given time.
  ghost predicate Windowed(all: seq<real>, kept: seq<real>, clock: real) {
    Ascending(kept) && (kept != [] ==> kept[|kept| - 1] <= clock) && SameSince(all, kept, clock - WINDOW)
  }

  lemma WindowedAppend(all: seq<real>, kept: seq<real>, now: real)
    requires Windowed(all, kept, now)
    ensures Windowed(all + [now], kept + [now], now)
  {
    SameAppended(all, kept, now, now - WINDOW);
  }

  /** Popping expired times off the front leaves exactly the times of the window, however often it was done before. */
  method PruneWindow(timestamps: seq<real>, now: real, ghost all: seq<real>) returns (kept: seq<real>)
    requires Windowed(all, timestamps, now)
    ensures Windowed(all, kept, now)
    ensures |kept| == CountSince(all, now - WINDOW)
  {
    var cutoff := now - WINDOW;
    kept := timestamps;
    while kept != [] && kept[0] < cutoff
      invariant Windowed(all, kept, now)
    {
      SameWithoutHead(all, kept, cutoff);
      kept := kept[1..];
    }
    CountAll(kept, cutoff);
  }

  // ------------------------------------------------------------------ percentiles

  function Insert(s: seq<real>, x: real): seq<real> {
    if s == [] || s[|s| - 1] <= x then s + [x] else Insert(s[..|s| - 1], x) + [s[|s| - 1]]
  }

  function Sort(s: seq<real>): (r: seq<real>)
    ensures |r| == |s|
  {
    if s == [] then [] else
      InsertLength(Sort(s[..|s| - 1]), s[|s| - 1]);
      Insert(Sort(s[..|s| - 1]), s[|s| - 1])
  }

  lemma {:induction false} InsertLength(s: seq<real>, x: real)
    ensures |Insert(s, x)| == |s| + 1
  {
    if s != [] && s[|s| - 1] > x {
      InsertLength(s[..|s| - 1], x);
    }
  }

  function AtMost(s: seq<real>, v: real): nat {
    if s == [] then 0 else AtMost(s[..|s| - 1], v) + if s[|s| - 1] <= v then 1 else 0
  }

  lemma {:induction false} InsertSorted(s: seq<real>, x: real, top: real)
    requires Ascending(s) && x <= top && (s != [] ==> s[|s| - 1] <= top)
    ensures Ascending(Insert(s, x)) && (forall i :: 0 <= i < |Insert(s, x)| ==> Insert(s, x)[i] <= top)
  {
    if s != [] && s[|s| - 1] > x {
      InsertSorted(s[..|s| - 1], x, s[|s| - 1]);
    }
  }

  lemma {:induction false} InsertCounts(s: seq<real>, x: real, v: real)
    ensures AtMost(Insert(s, x), v) == AtMost(s, v) + (if x <= v then 1 else 0)
    ensures CountSince(Insert(s, x), v) == CountSince(s, v) + (if x >= v then 1 else 0)
  {
    var r := Insert(s, x);
    if s == [] || s[|s| - 1] <= x {
      assert r[..|r| - 1] == s;
    } else {
      InsertCounts(s[..|s| - 1], x, v);
      assert r[..|r| - 1] == Insert(s[..|s| - 1], x);
    }
  }

  lemma {:induction false} SortSorts(s: seq<real>, v: real)
    ensures Ascending(Sort(s)) && AtMost(Sort(s), v) == AtMost(s, v) && CountSince(Sort(s), v) == CountSince(s, v)
  {
    if s != [] {
      var r, x := Sort(s[..|s| - 1]), s[|s| - 1];
      SortSorts(s[..|s| - 1], v);
      InsertSorted(r, x, if r == [] || r[|r| - 1] <= x then x else r[|r| - 1]);
      InsertCounts(r, x, v);
    }
  }

  function Rank(n: nat, p: real): nat
    requires n > 0 && p >= 0.0
  {
    RankNonNegative(n, p);
    var idx := (n as real * p / 100.0).Floor;
    if idx <= n - 1 then idx else n - 1
  }

  lemma RankNonNegative(n: nat, p: real)
    requires p >= 0.0
    ensures n as real * p >= 0.0
  {
  }

  function Percentile(samples: seq<real>, p: real): real
    requires p >= 0.0
  {
    if samples == [] then 0.0 else Sort(samples)[Rank(|samples|, p)]
  }

  lemma {:induction false} AtMostPrefix(s: seq<real>, n: nat, v: real)
    requires n <= |s| && forall i :: 0 <= i < n ==> s[i] <= v
    ensures AtMost(s, v) >= n
    decreases |s|
  {
    if n > 0 {
      var t := s[..|s| - 1];
      AtMostPrefix(t, if n <= |t| then n else n - 1, v);
    }
  }

  lemma CountSuffix(s: seq<real>, n: nat, v: real)
    requires n <= |s| && forall i :: n <= i < |s| ==> s[i] >= v
    ensures CountSince(s, v) >= |s| - n
  {
    assert s == s[..n] + s[n..];
    CountSplit(s[..n], s[n..], v);
    CountAll(s[n..], v);
  }

  /**
   The p-th percentile of any samples: with i the rank asked for, at least i + 1 samples are no greater
   and at least n - i are no smaller.
   */
  lemma PercentileRank(samples: seq<real>, p: real)
    requires samples != [] && p >= 0.0
    ensures var v, i := Percentile(samples, p), Rank(|samples|, p);
      AtMost(samples, v) >= i + 1 && CountSince(samples, v) >= |samples| - i
  {
    var v, i, t := Percentile(samples, p), Rank(|samples|, p), Sort(samples);
    SortSorts(samples, v);
    AtMostPrefix(t, i + 1, v);
    CountSuffix(t, i, v);
  }

  function Below(s: seq<real>, v: real): nat {
    if s == [] then 0 else Below(s[..|s| - 1], v) + if s[|s| - 1] < v then 1 else 0
  }

  lemma {:induction false} BelowOrNot(s: seq<real>, v: real)
    ensures Below(s, v) + CountSince(s, v) == |s|
  {
    if s != [] {
      BelowOrNot(s[..|s| - 1], v);
    }
  }

  lemma RankValue(n: nat, p: real)
    requires n > 0 && p >= 0.0
    ensures p < 100.0 ==> Rank(n, p) as real <= n as real * p / 100.0 < Rank(n, p) as real + 1.0
    ensures p >= 100.0 ==> Rank(n, p) == n - 1
  {
    var x := n as real * p / 100.0;
    RankNonNegative(n, p);
    if p < 100.0 {
      assert n as real * (100.0 - p) > 0.0;
      assert x < n as real;
    } else {
      assert n as real * (p - 100.0) >= 0.0;
      assert x >= n as real;
    }
  }

  // Of n samples, p percent.
  function Portion(n: nat, p: real): real { n as real * p / 100.0 }

  lemma RankOfPortion(n: nat, p: real)
    requires n > 0 && p >= 0.0
    ensures p < 100.0 ==> Rank(n, p) as real <= Portion(n, p) < Rank(n, p) as real + 1.0
    ensures p >= 100.0 ==> Rank(n, p) == n - 1
  {
    RankValue(n, p);
  }

  lemma RankSplits(samples: seq<real>, p: real)
    requires samples != [] && p >= 0.0
    ensures Below(samples, Percentile(samples, p)) <= Rank(|samples|, p) < AtMost(samples, Percentile(samples, p)) <= |samples|
  {
    var v := Percentile(samples, p);
    PercentileRank(samples, p);
    BelowOrNot(samples, v);
    AtMostAll(samples, v);
  }

  /**
   What a percentile is, without ranks: at most p percent of the samples are smaller than it, and more than
   p percent are no greater; from the hundredth on it is the largest sample.
   */
  lemma PercentileMeaning(samples: seq<real>, p: real)
    requires samples != [] && p >= 0.0
    ensures p < 100.0 ==>
      Below(samples, Percentile(samples, p)) as real <= Portion(|samples|, p) < AtMost(samples, Percentile(samples, p)) as real
    ensures p >= 100.0 ==> AtMost(samples, Percentile(samples, p)) == |samples|
  {
    var v := Percentile(samples, p);
    RankOfPortion(|samples|, p);
    RankSplits(samples, p);
    MeaningOfRank(Below(samples, v), Rank(|samples|, p), AtMost(samples, v), |samples|, p, Portion(|samples|, p));
  }

  lemma MeaningOfRank(below: nat, rank: nat, atMost: nat, n: nat, p: real, portion: real)
    requires below <= rank < atMost <= n
    requires p < 100.0 ==> rank as real <= portion < rank as real + 1.0
    requires p >= 100.0 ==> rank == n - 1
    ensures p < 100.0 ==> below as real <= portion < atMost as real
    ensures p >= 100.0 ==> atMost == n
  {
  }

  lemma {:induction false} AtMostAll(s: seq<real>, v: real)
    ensures AtMost(s, v) <= |s|
  {
    if s != [] {
      AtMostAll(s[..|s| - 1], v);
    }
  }

  lemma RankMonotone(n: nat, p: real, q: real)
    requires n > 0 && 0.0 <= p <= q
    ensures Rank(n, p) <= Rank(n, q)
  {
    assert n as real * (q - p) >= 0.0;
    assert n as real * q == n as real * p + n as real * (q - p);
    assert n as real * p / 100.0 <= n as real * q / 100.0;
  }

  /** p50, p95 and p99 can only come out in that order. */
  lemma PercentileMonotone(samples: seq<real>, p: real, q: real)
    requires 0.0 <= p <= q
    ensures Percentile(samples, p) <= Percentile(samples, q)
  {
    if samples != [] {
      RankMonotone(|samples|, p, q);
      SortSorts(samples, 0.0);
    }
  }

  // -------------------------------------------------------------------- collector

  function Get<T>(m: map<QueueName, seq<T>>, q: QueueName): seq<T> { if q in m then m[q] else [] }

  /** The last thousand of the samples. */
  function Latest(s: seq<real>): seq<real> { if |s| <= MAX_SAMPLES then s else s[|s| - MAX_SAMPLES..] }

  function Bumped(m: map<QueueName, nat>, q: QueueName): map<QueueName, nat> {
    m[q := 1 + if q in m then m[q] else 0]
  }

  class MetricsCollector {
    var ackTimes: map<QueueName, seq<real>>
    var dequeueTimestamps: map<TaskId, real>
    var taskQueues: map<TaskId, QueueName>
    var latencySamples: map<QueueName, seq<real>>
    var totalConsumed: map<QueueName, nat>
    var totalAcked: map<QueueName, nat>
    var totalNacked: map<QueueName, nat>
    var totalDlq: map<QueueName, nat>

    // Every acknowledgement and every latency ever recorded, and the latest time seen.
    ghost var acked: map<QueueName, seq<real>>
    ghost var measured: map<QueueName, seq<real>>
    ghost var clock: real

    ghost predicate ValidQueue(q: QueueName)
      reads this`ackTimes, this`latencySamples, this`acked, this`measured, this`clock
    {
      Windowed(Get(acked, q), Get(ackTimes, q), clock) &&
      Get(latencySamples, q) == Latest(Get(measured, q))
    }

    ghost predicate Valid()
      reads this`ackTimes, this`latencySamples, this`acked, this`measured, this`clock
    {
      forall q: QueueName :: ValidQueue(q)
    }

    constructor (now: real)
      ensures Valid() && clock == now && acked == map[] && measured == map[]
    {
      ackTimes, dequeueTimestamps, taskQueues, latencySamples := map[], map[], map[], map[];
      totalConsumed, totalAcked, totalNacked, totalDlq := map[], map[], map[], map[];
      acked, measured, clock := map[], map[], now;
    }

    method RecordConsume(q: QueueName, id: TaskId, now: real)
      requires Valid() && clock <= now
      modifies this`dequeueTimestamps, this`taskQueues, this`totalConsumed, this`clock
      ensures Valid() && clock == now
      ensures dequeueTimestamps == old(dequeueTimestamps)[id := now] && taskQueues == old(taskQueues)[id := q]
      ensures totalConsumed == Bumped(old(totalConsumed), q)
    {
      dequeueTimestamps, taskQueues := dequeueTimestamps[id := now], taskQueues[id := q];
      totalConsumed := Bumped(totalConsumed, q);
      Advance(now);
    }

    ghost method Advance(now: real)
      requires Valid() && clock <= now
      modifies this`clock
      ensures Valid() && clock == now
    {
      clock := now;
      forall q: QueueName ensures ValidQueue(q) {
        assert old(ValidQueue(q));
      }
    }

    method NoteAck(q: QueueName, now: real)
      requires Valid() && clock == now
      modifies this`ackTimes, this`acked
      ensures Valid() && acked == old(acked)[q := Get(old(acked), q) + [now]]
    {
      assert ValidQueue(q);
      WindowedAppend(Get(acked, q), Get(ackTimes, q), now);
      ackTimes := ackTimes[q := Get(ackTimes, q) + [now]];
      acked := acked[q := Get(acked, q) + [now]];
      forall r: QueueName ensures ValidQueue(r) {
        assert old(ValidQueue(r));
      }
    }

    method NoteLatency(q: QueueName, latency: real)
      requires Valid()
      modifies this`latencySamples, this`measured
      ensures Valid() && measured == old(measured)[q := Get(old(measured), q) + [latency]]
    {
      assert ValidQueue(q);
      LatestAppend(Get(measured, q), latency);
      latencySamples := latencySamples[q := Latest(Get(latencySamples, q) + [latency])];
      measured := measured[q := Get(measured, q) + [latency]];
      forall r: QueueName ensures ValidQueue(r) {
        assert old(ValidQueue(r));
      }
    }

    /** An acknowledgement counts towards throughput; it yields a latency exactly when its delivery was seen. */
    method RecordAck(q: QueueName, id: TaskId, now: real)
      requires Valid() && clock <= now
      modifies this`ackTimes, this`acked, this`latencySamples, this`measured, this`dequeueTimestamps, this`taskQueues,
               this`totalAcked, this`clock
      ensures Valid() && clock == now && totalAcked == Bumped(old(totalAcked), q) && taskQueues == old(taskQueues) - {id}
      ensures acked == old(acked)[q := Get(old(acked), q) + [now]]
      ensures dequeueTimestamps == old(dequeueTimestamps) - {id}
      ensures measured ==
        if id !in old(dequeueTimestamps) then old(measured)
        else old(measured)[q := Get(old(measured), q) + [(now - old(dequeueTimestamps)[id]) * 1000.0]]
    {
      Advance(now);
      NoteAck(q, now);
      totalAcked := Bumped(totalAcked, q);
      if id in dequeueTimestamps {
        NoteLatency(q, (now - dequeueTimestamps[id]) * 1000.0);
      }
      Forget(id);
    }

    method Forget(id: TaskId)
      requires Valid()
      modifies this`dequeueTimestamps, this`taskQueues
      ensures Valid() && dequeueTimestamps == old(dequeueTimestamps) - {id} && taskQueues == old(taskQueues) - {id}
    {
      dequeueTimestamps, taskQueues := dequeueTimestamps - {id}, taskQueues - {id};
    }

    /** A failed delivery yields no latency. */
    method RecordNack(q: QueueName, id: TaskId, deadLettered: bool)
      requires Valid()
      modifies this`dequeueTimestamps, this`taskQueues, this`totalNacked, this`totalDlq
      ensures Valid() && dequeueTimestamps == old(dequeueTimestamps) - {id} && taskQueues == old(taskQueues) - {id}
      ensures totalNacked == Bumped(old(totalNacked), q)
      ensures totalDlq == if deadLettered then Bumped(old(totalDlq), q) else old(totalDlq)
    {
      totalNacked := Bumped(totalNacked, q);
      if deadLettered {
        totalDlq := Bumped(totalDlq, q);
      }
      Forget(id);
    }

    method Keep(q: QueueName, kept: seq<real>)
      requires Valid() && q in ackTimes && Windowed(Get(acked, q), kept, clock)
      modifies this`ackTimes
      ensures Valid() && ackTimes == old(ackTimes)[q := kept]
    {
      ackTimes := ackTimes[q := kept];
      forall r: QueueName ensures ValidQueue(r) {
        assert old(ValidQueue(r));
      }
    }

    /** Acknowledgements a second over the window: the count is over everything ever recorded, pruned or not. */
    method Throughput(q: QueueName, now: real) returns (rate: real)
      requires Valid() && clock <= now
      modifies this`ackTimes, this`clock
      ensures Valid() && clock == now
      ensures rate == CountSince(Get(acked, q), now - WINDOW) as real / WINDOW
    {
      Advance(now);
      assert ValidQueue(q);
      var kept := PruneWindow(Get(ackTimes, q), now, Get(acked, q));
      if q in ackTimes {
        Keep(q, kept);
      }
      rate := if |kept| == 0 then 0.0 else |kept| as real / WINDOW;
    }

    /** A percentile of the last thousand latencies recorded for the queue. */
    method PercentileLatency(q: QueueName, p: real) returns (latency: real)
      requires Valid() && p >= 0.0
      ensures latency == Percentile(Latest(Get(measured, q)), p)
    {
      var samples := Get(latencySamples, q);
      assert ValidQueue(q);
      if samples == [] {
        return 0.0;
      }
      latency := Sort(samples)[Rank(|samples|, p)];
    }
  }

  /** The samples kept are the newest ones, in order, and a thousand of them once there have been that many. */
  lemma LatestAreNewest(s: seq<real>)
    ensures |Latest(s)| == if |s| <= 1000 then |s| else 1000
    ensures s == s[..|s| - |Latest(s)|] + Latest(s)
  {
  }

  lemma LatestAppend(s: seq<real>, x: real)
    ensures Latest(s + [x]) == Latest(Latest(s) + [x])
  {
  }
}
