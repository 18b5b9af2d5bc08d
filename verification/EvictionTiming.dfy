/**
 When the eviction loop removes a worker: never while its heartbeats keep coming, and at the first
 pass after the timeout once they stop, however far apart the passes are.
 */
module EvictionTiming {
  import opened Tasks
  import opened Registry

  datatype Event =
    | Join(worker: WorkerId, at: real)
    | Beat(worker: WorkerId, at: real)
    | Tick(at: real)

  function Apply(r: Workers, e: Event): Workers {
    match e
    case Join(w, t) => Register(r, w, t)
    case Beat(w, t) => Heartbeat(r, w, t)
    case Tick(t) => Evict(r, t, 0)
  }

  function ApplyAll(r: Workers, es: seq<Event>): Workers
    decreases |es|
  {
    if es == [] then r else ApplyAll(Apply(r, es[0]), es[1..])
  }

  /** The worker is heard from. */
  predicate Word(w: WorkerId, e: Event) {
    !e.Tick? && e.worker == w
  }

  ghost predicate Timed(es: seq<Event>) {
    forall i, j :: 0 <= i < j < |es| ==> es[i].at <= es[j].at
  }

  /** Index of the first event that is word from w, or |es|. */
  function FirstWord(w: WorkerId, es: seq<Event>): (k: nat)
    ensures k <= |es|
    ensures k < |es| ==> Word(w, es[k])
    ensures forall i :: 0 <= i < k ==> !Word(w, es[i])
  {
    if es == [] || Word(w, es[0]) then 0 else 1 + FirstWord(w, es[1..])
  }

  /** No gap between words from w exceeds the timeout, nor does the wait after the last one. */
  ghost predicate Steady(w: WorkerId, last: real, es: seq<Event>)
    decreases |es|
  {
    var k := FirstWord(w, es);
    if k == |es| then forall i :: 0 <= i < |es| ==> es[i].at - last <= HEARTBEAT_TIMEOUT
    else es[k].at - last <= HEARTBEAT_TIMEOUT && Steady(w, es[k].at, es[k + 1..])
  }

  lemma WaitKeeps(r: Workers, w: WorkerId, e: Event)
    requires w in r.info && !Word(w, e)
    ensures w in Apply(r, e).info <==> !(e.Tick? && e.at - r.info[w].lastHeartbeat > HEARTBEAT_TIMEOUT)
    ensures w in Apply(r, e).info ==> Apply(r, e).info[w] == r.info[w]
  {
  }

  lemma {:induction false} Survives(r: Workers, w: WorkerId, es: seq<Event>)
    requires w in r.info
    requires forall i :: 0 <= i < |es| ==> !Word(w, es[i]) && es[i].at - r.info[w].lastHeartbeat <= HEARTBEAT_TIMEOUT
    ensures w in ApplyAll(r, es).info && ApplyAll(r, es).info[w] == r.info[w]
    decreases |es|
  {
    if es != [] {
      WaitKeeps(r, w, es[0]);
      Survives(Apply(r, es[0]), w, es[1..]);
    }
  }

  lemma {:induction false} ApplySplit(r: Workers, a: seq<Event>, b: seq<Event>)
    ensures ApplyAll(r, a + b) == ApplyAll(ApplyAll(r, a), b)
    decreases |a|
  {
    if a == [] {
      assert a + b == b;
    } else {
      assert (a + b)[0] == a[0] && (a + b)[1..] == a[1..] + b;
      ApplySplit(Apply(r, a[0]), a[1..], b);
    }
  }

  /** A worker whose heartbeat gaps never exceed 6 seconds is never evicted. */
  lemma {:induction false} SteadyNeverEvicted(r: Workers, w: WorkerId, es: seq<Event>)
    requires w in r.info && Timed(es) && Steady(w, r.info[w].lastHeartbeat, es)
    ensures w in ApplyAll(r, es).info
    decreases |es|
  {
    var k := FirstWord(w, es);
    if k == |es| {
      Survives(r, w, es);
    } else {
      Survives(r, w, es[..k]);
      var mid := ApplyAll(r, es[..k]);
      var next := Apply(mid, es[k]);
      SteadyNeverEvicted(next, w, es[k + 1..]);
      assert es == es[..k] + ([es[k]] + es[k + 1..]);
      ApplySplit(r, es[..k], [es[k]] + es[k + 1..]);
      assert ([es[k]] + es[k + 1..])[1..] == es[k + 1..];
    }
  }

  // -------------------------------------------------------- silent workers

  /** Passes follow the one at `last` in order, none more than `gap` seconds after the one before. */
  ghost predicate Passes(es: seq<Event>, last: real, gap: real)
    decreases |es|
  {
    es == [] ||
    (if es[0].Tick? then last <= es[0].at <= last + gap && Passes(es[1..], es[0].at, gap) else Passes(es[1..], last, gap))
  }

  /** The time of the last pass in es, or `last` if there is none. */
  function LastPass(es: seq<Event>, last: real): real
    decreases |es|
  {
    if es == [] then last else LastPass(es[1..], if es[0].Tick? then es[0].at else last)
  }

  lemma {:induction false} LastPassGrows(es: seq<Event>, last: real, gap: real)
    requires Passes(es, last, gap)
    ensures LastPass(es, last) >= last
    decreases |es|
  {
    if es != [] {
      LastPassGrows(es[1..], if es[0].Tick? then es[0].at else last, gap);
    }
  }

  lemma {:induction false} GoneStaysGone(r: Workers, w: WorkerId, es: seq<Event>)
    requires w !in r.info && forall i :: 0 <= i < |es| ==> !Word(w, es[i])
    ensures w !in ApplyAll(r, es).info
    decreases |es|
  {
    if es != [] {
      GoneStaysGone(Apply(r, es[0]), w, es[1..]);
    }
  }

  /** A silent worker is registered exactly as long as no pass has come later than 6 seconds after its last word. */
  lemma {:induction false} SilentUntil(r: Workers, w: WorkerId, es: seq<Event>, last: real, gap: real)
    requires w in r.info && Passes(es, last, gap) && last <= r.info[w].lastHeartbeat + HEARTBEAT_TIMEOUT
    requires forall i :: 0 <= i < |es| ==> !Word(w, es[i])
    ensures w in ApplyAll(r, es).info <==> LastPass(es, last) <= r.info[w].lastHeartbeat + HEARTBEAT_TIMEOUT
    decreases |es|
  {
    if es != [] {
      var r1 := Apply(r, es[0]);
      var last1 := if es[0].Tick? then es[0].at else last;
      WaitKeeps(r, w, es[0]);
      if w in r1.info {
        SilentUntil(r1, w, es[1..], last1, gap);
      } else {
        GoneStaysGone(r1, w, es[1..]);
        LastPassGrows(es[1..], last1, gap);
      }
    }
  }

  /**
   The pass that removes a silent worker is the first one later than 6 seconds after its last word; it comes
   at most 6 seconds plus the gap between passes after it, so within 8 when the passes are 2 seconds apart.
   */
  lemma EvictedWithinWindow(r: Workers, w: WorkerId, es: seq<Event>, last: real, gap: real, t: real)
    requires w in r.info && Passes(es, last, gap) && last <= r.info[w].lastHeartbeat + HEARTBEAT_TIMEOUT
    requires forall i :: 0 <= i < |es| ==> !Word(w, es[i])
    requires LastPass(es, last) <= t <= LastPass(es, last) + gap
    ensures var removed := w in ApplyAll(r, es).info && w !in Apply(ApplyAll(r, es), Tick(t)).info;
      && (removed <==> LastPass(es, last) - r.info[w].lastHeartbeat <= HEARTBEAT_TIMEOUT < t - r.info[w].lastHeartbeat)
      && (removed ==> HEARTBEAT_TIMEOUT < t - r.info[w].lastHeartbeat <= HEARTBEAT_TIMEOUT + gap)
      && (removed && gap == TICK ==> t - r.info[w].lastHeartbeat <= 8.0)
  {
    SilentUntil(r, w, es, last, gap);
    var mid := ApplyAll(r, es);
    if w in mid.info {
      SilentKeepsWord(r, w, es);
      WaitKeeps(mid, w, Tick(t));
    }
  }

  lemma {:induction false} SilentKeepsWord(r: Workers, w: WorkerId, es: seq<Event>)
    requires w in r.info && w in ApplyAll(r, es).info && forall i :: 0 <= i < |es| ==> !Word(w, es[i])
    ensures ApplyAll(r, es).info[w] == r.info[w]
    decreases |es|
  {
    if es != [] {
      WaitKeeps(r, w, es[0]);
      if w in Apply(r, es[0]).info {
        SilentKeepsWord(Apply(r, es[0]), w, es[1..]);
      } else {
        GoneStaysGone(Apply(r, es[0]), w, es[1..]);
      }
    }
  }
}
