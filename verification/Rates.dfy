/**
 The adaptive fill rate: how queue depth and worker latency throttle producers.
 */
module Rates {
  function Min(a: real, b: real): real { if a <= b then a else b }
  function Max(a: real, b: real): real { if a >= b then a else b }

  // --------------------------------------------------------------- tuning

  datatype Tuning = Tuning(base: real, floor: real, depthThreshold: int, latencyThreshold: real, capacity: real)

  const DEFAULT_TUNING: Tuning := Tuning(100.0, 5.0, 50, 200.0, 200.0)

  predicate Sane(c: Tuning) {
    c.base >= 0.0 && c.floor > 0.0 && c.depthThreshold > 0 && c.latencyThreshold > 0.0 && c.capacity >= 0.0
  }

  function DepthFactor(c: Tuning, depth: int): real
    requires Sane(c)
  {
    if depth <= c.depthThreshold then 1.0
    else Max(0.05, 1.0 - (depth - c.depthThreshold) as real / (10 * c.depthThreshold) as real)
  }

  function LatencyFactor(c: Tuning, latency: real): real
    requires Sane(c)
  {
    if latency <= c.latencyThreshold then 1.0
    else Max(0.1, 1.0 - (latency - c.latencyThreshold) / (10.0 * c.latencyThreshold))
  }

  // A named product keeps the solver's non-linear reasoning to the lemmas that need it.
  function Times(a: real, b: real): real { a * b }

  function Scaled(b: real, d: real, l: real): real { Times(Times(b, d), l) }

  /** Tokens per second under the given queue depth and average worker latency. */
  function AdjustedRate(c: Tuning, depth: int, latency: real): (rate: real)
    requires Sane(c)
    ensures rate >= c.floor
  {
    Max(c.floor, Scaled(c.base, DepthFactor(c, depth), LatencyFactor(c, latency)))
  }

  lemma MulMonotone(a: real, b: real, c: real)
    requires a <= b && c >= 0.0
    ensures Times(a, c) <= Times(b, c) && Times(c, a) <= Times(c, b)
  {
  }

  lemma DivMonotone(a: real, b: real, c: real)
    requires a <= b && c > 0.0
    ensures a / c <= b / c
  {
    assert b / c - a / c == (b - a) / c;
    assert (b - a) / c >= 0.0;
  }

  lemma DivPositive(a: real, c: real)
    requires a >= 0.0 && c > 0.0
    ensures a / c >= 0.0
  {
  }

  lemma FactorBounds(c: Tuning, depth: int, latency: real)
    requires Sane(c)
    ensures 0.05 <= DepthFactor(c, depth) <= 1.0
    ensures 0.1 <= LatencyFactor(c, latency) <= 1.0
  {
    if depth > c.depthThreshold {
      DivPositive((depth - c.depthThreshold) as real, (10 * c.depthThreshold) as real);
    }
    if latency > c.latencyThreshold {
      DivPositive(latency - c.latencyThreshold, 10.0 * c.latencyThreshold);
    }
  }

  lemma ShrinkBy(b: real, f: real)
    requires b >= 0.0 && 0.0 <= f <= 1.0
    ensures 0.0 <= Times(b, f) <= b
  {
    MulMonotone(f, 1.0, b);
    MulMonotone(0.0, f, b);
  }

  lemma ProductBounds(b: real, d: real, l: real)
    requires b >= 0.0 && 0.0 <= d <= 1.0 && 0.0 <= l <= 1.0
    ensures 0.0 <= Scaled(b, d, l) <= b
  {
    ShrinkBy(b, d);
    ShrinkBy(Times(b, d), l);
  }

  lemma ProductMonotone(b: real, d: real, d': real, l: real, l': real)
    requires b >= 0.0 && 0.0 <= d' <= d && 0.0 <= l' <= l
    ensures Scaled(b, d', l') <= Scaled(b, d, l)
  {
    MulMonotone(d', d, b);
    MulMonotone(0.0, d', b);
    MulMonotone(l', l, Times(b, d'));
    MulMonotone(Times(b, d'), Times(b, d), l);
  }

  /** The rate never leaves [floor, max(floor, base)]. */
  lemma RateBounds(c: Tuning, depth: int, latency: real)
    requires Sane(c)
    ensures c.floor <= AdjustedRate(c, depth, latency) <= Max(c.floor, c.base)
  {
    FactorBounds(c, depth, latency);
    ProductBounds(c.base, DepthFactor(c, depth), LatencyFactor(c, latency));
  }

  lemma DepthAntitone(c: Tuning, depth: int, depth': int)
    requires Sane(c) && depth <= depth'
    ensures DepthFactor(c, depth') <= DepthFactor(c, depth)
  {
    FactorBounds(c, depth', 0.0);
    if depth > c.depthThreshold {
      DivMonotone((depth - c.depthThreshold) as real, (depth' - c.depthThreshold) as real, (10 * c.depthThreshold) as real);
    }
  }

  lemma LatencyAntitone(c: Tuning, latency: real, latency': real)
    requires Sane(c) && latency <= latency'
    ensures LatencyFactor(c, latency') <= LatencyFactor(c, latency)
  {
    FactorBounds(c, 0, latency');
    if latency > c.latencyThreshold {
      DivMonotone(latency - c.latencyThreshold, latency' - c.latencyThreshold, 10.0 * c.latencyThreshold);
    }
  }

  /** More depth or more latency never raises the rate. */
  lemma RateAntitone(c: Tuning, depth: int, depth': int, latency: real, latency': real)
    requires Sane(c) && depth <= depth' && latency <= latency'
    ensures AdjustedRate(c, depth', latency') <= AdjustedRate(c, depth, latency)
  {
    FactorBounds(c, depth', latency');
    DepthAntitone(c, depth, depth');
    LatencyAntitone(c, latency, latency');
    ProductMonotone(c.base, DepthFactor(c, depth), DepthFactor(c, depth'), LatencyFactor(c, latency), LatencyFactor(c, latency'));
  }

  lemma MulStrict(a: real, b: real, c: real)
    requires a < b && c > 0.0
    ensures a * c < b * c
  {
    assert (b - a) * c > 0.0;
  }

  lemma DivAtMost(a: real, b: real, c: real)
    requires c > 0.0
    ensures a / c <= b <==> a <= b * c
    ensures a / c >= b <==> a >= b * c
  {
    var q := a / c;
    assert q * c == a;
    if q < b {
      MulStrict(q, b, c);
    } else if b < q {
      MulStrict(b, q, c);
    }
  }

  /** The depth factor reaches its floor at 10.5 times the threshold; at 10 times it is still 0.1. */
  lemma DepthFloorAt(c: Tuning, depth: int)
    requires Sane(c)
    ensures DepthFactor(c, depth) == 0.05 <==> 2 * depth >= 21 * c.depthThreshold
    ensures depth == 10 * c.depthThreshold ==> DepthFactor(c, depth) == 0.1
  {
    var t := c.depthThreshold;
    if depth > t {
      DivAtMost((depth - t) as real, 0.95, (10 * t) as real);
      DivAtMost((depth - t) as real, 0.9, (10 * t) as real);
    }
  }

  /** The latency factor reaches its floor at 10 times the threshold. */
  lemma LatencyFloorAt(c: Tuning, latency: real)
    requires Sane(c)
    ensures LatencyFactor(c, latency) == 0.1 <==> latency >= 10.0 * c.latencyThreshold
  {
    if latency > c.latencyThreshold {
      DivAtMost(latency - c.latencyThreshold, 0.9, 10.0 * c.latencyThreshold);
    }
  }

  // ------------------------------------------------------------------ the value

  lemma OneMinus(x: real, t: real)
    requires t > 0.0
    ensures 1.0 - (x - t) / (10.0 * t) == (11.0 * t - x) / (10.0 * t)
  {
    var u := 10.0 * t;
    SumToOne(x - t, 11.0 * t - x, u);
  }

  lemma SumToOne(a: real, b: real, u: real)
    requires u > 0.0 && a + b == u
    ensures a / u + b / u == 1.0
  {
    var q, r := a / u, b / u;
    assert q * u == a && r * u == b;
    assert (q + r) * u == q * u + r * u;
    if q + r < 1.0 {
      MulStrict(q + r, 1.0, u);
    } else if q + r > 1.0 {
      MulStrict(1.0, q + r, u);
    }
  }

  /** Between the threshold and 10.5 times it, the depth factor falls along a straight line. */
  lemma DepthLine(c: Tuning, depth: int)
    requires Sane(c) && c.depthThreshold <= depth && 2 * depth <= 21 * c.depthThreshold
    ensures DepthFactor(c, depth) == (11 * c.depthThreshold - depth) as real / (10 * c.depthThreshold) as real
  {
    var t := c.depthThreshold;
    OneMinus(depth as real, t as real);
    assert (10 * t) as real == 10.0 * t as real;
    if depth > t {
      DivAtMost((depth - t) as real, 0.95, (10 * t) as real);
    }
  }

  /** Between the threshold and 10 times it, the latency factor falls along a straight line. */
  lemma LatencyLine(c: Tuning, latency: real)
    requires Sane(c) && c.latencyThreshold <= latency <= 10.0 * c.latencyThreshold
    ensures LatencyFactor(c, latency) == (11.0 * c.latencyThreshold - latency) / (10.0 * c.latencyThreshold)
  {
    var t := c.latencyThreshold;
    OneMinus(latency, t);
    if latency > t {
      DivAtMost(latency - t, 0.9, 10.0 * t);
    }
  }

  lemma UnitFactors(b: real, d: real, l: real)
    ensures Scaled(b, 1.0, l) == b * l && Scaled(b, d, 1.0) == b * d && Scaled(b, 1.0, 1.0) == b
    ensures Scaled(b, d, l) == b * d * l
  {
  }

  /** Unloaded: the base rate, or the floor if that is higher. */
  lemma CalmRate(c: Tuning, depth: int, latency: real)
    requires Sane(c) && depth <= c.depthThreshold && latency <= c.latencyThreshold
    ensures AdjustedRate(c, depth, latency) == Max(c.floor, c.base)
  {
    UnitFactors(c.base, 1.0, 1.0);
  }

  /** Slow workers alone: the rate falls linearly in the latency, to a tenth of the base at 10 times the threshold. */
  lemma SlowRate(c: Tuning, depth: int, latency: real)
    requires Sane(c) && depth <= c.depthThreshold && c.latencyThreshold <= latency
    ensures latency <= 10.0 * c.latencyThreshold ==>
      AdjustedRate(c, depth, latency) == Max(c.floor, c.base * ((11.0 * c.latencyThreshold - latency) / (10.0 * c.latencyThreshold)))
    ensures latency >= 10.0 * c.latencyThreshold ==> AdjustedRate(c, depth, latency) == Max(c.floor, c.base * 0.1)
  {
    UnitFactors(c.base, 1.0, LatencyFactor(c, latency));
    LatencyFloorAt(c, latency);
    if latency <= 10.0 * c.latencyThreshold {
      LatencyLine(c, latency);
    }
  }

  /** A deep queue alone: the rate falls linearly in the depth, to a twentieth of the base at 10.5 times the threshold. */
  lemma DeepRate(c: Tuning, depth: int, latency: real)
    requires Sane(c) && c.depthThreshold <= depth && latency <= c.latencyThreshold
    ensures 2 * depth <= 21 * c.depthThreshold ==>
      AdjustedRate(c, depth, latency) == Max(c.floor, c.base * ((11 * c.depthThreshold - depth) as real / (10 * c.depthThreshold) as real))
    ensures 2 * depth >= 21 * c.depthThreshold ==> AdjustedRate(c, depth, latency) == Max(c.floor, c.base * 0.05)
  {
    UnitFactors(c.base, DepthFactor(c, depth), 1.0);
    DepthFloorAt(c, depth);
    if 2 * depth <= 21 * c.depthThreshold {
      DepthLine(c, depth);
    }
  }

  /** The share of the base rate that a depth leaves: all of it up to the threshold, then a straight line, then a twentieth. */
  predicate DepthShare(c: Tuning, depth: int, share: real)
    requires Sane(c)
  {
    && (depth <= c.depthThreshold ==> share == 1.0)
    && (c.depthThreshold <= depth && 2 * depth <= 21 * c.depthThreshold ==>
          share == (11 * c.depthThreshold - depth) as real / (10 * c.depthThreshold) as real)
    && (21 * c.depthThreshold <= 2 * depth ==> share == 0.05)
  }

  predicate LatencyShare(c: Tuning, latency: real, share: real)
    requires Sane(c)
  {
    && (latency <= c.latencyThreshold ==> share == 1.0)
    && (c.latencyThreshold <= latency <= 10.0 * c.latencyThreshold ==>
          share == (11.0 * c.latencyThreshold - latency) / (10.0 * c.latencyThreshold))
    && (10.0 * c.latencyThreshold <= latency ==> share == 0.1)
  }

  /** The rate under any load: the base times both shares, or the floor if that is higher. */
  lemma LoadedRate(c: Tuning, depth: int, latency: real, d: real, l: real)
    requires Sane(c) && DepthShare(c, depth, d) && LatencyShare(c, latency, l)
    ensures AdjustedRate(c, depth, latency) == Max(c.floor, c.base * d * l)
  {
    DepthShareIs(c, depth, d);
    LatencyShareIs(c, latency, l);
    UnitFactors(c.base, d, l);
  }

  lemma DepthShareIs(c: Tuning, depth: int, share: real)
    requires Sane(c) && DepthShare(c, depth, share)
    ensures DepthFactor(c, depth) == share
  {
    DepthFloorAt(c, depth);
    if c.depthThreshold <= depth && 2 * depth <= 21 * c.depthThreshold {
      DepthLine(c, depth);
    }
  }

  lemma LatencyShareIs(c: Tuning, latency: real, share: real)
    requires Sane(c) && LatencyShare(c, latency, share)
    ensures LatencyFactor(c, latency) == share
  {
    LatencyFloorAt(c, latency);
    if c.latencyThreshold <= latency <= 10.0 * c.latencyThreshold {
      LatencyLine(c, latency);
    }
  }

  /** The default tuning in numbers. */
  lemma DefaultRates()
    ensures AdjustedRate(DEFAULT_TUNING, 0, 0.0) == 100.0
    ensures AdjustedRate(DEFAULT_TUNING, 0, 1200.0) == 50.0
    ensures AdjustedRate(DEFAULT_TUNING, 300, 0.0) == 50.0
    ensures AdjustedRate(DEFAULT_TUNING, 300, 1200.0) == 25.0
    ensures AdjustedRate(DEFAULT_TUNING, 500, 0.0) == 10.0
    ensures AdjustedRate(DEFAULT_TUNING, 0, 2000.0) == 10.0
    ensures AdjustedRate(DEFAULT_TUNING, 525, 2000.0) == 5.0
  {
  }
}
