/** Reconnect delays: exponential backoff with jitter, over the reals (the source's rounding is only `Math.floor`). */
module Retry {
  import opened Seqs

  /** `maxRetries` may be `Infinity`. */
  datatype Limit = Infinity | AtMost(n: int)

  datatype RetryConfig = RetryConfig(
    enabled: Option<bool>, initialDelayMs: Option<real>, maxDelayMs: Option<real>, maxRetries: Option<Limit>)

  datatype NormalizedRetryConfig = Normalized(enabled: bool, initialDelayMs: real, maxDelayMs: real, maxRetries: Limit)

  const WS_RETRY_DEFAULTS := Normalized(true, 1000.0, 30000.0, Infinity)

  function OrDefault<T>(given: Option<T>, default: T): T {
    match given case Some(v) => v case None => default
  }

  function NormalizeRetryConfig(retry: Option<RetryConfig>, defaults: NormalizedRetryConfig): NormalizedRetryConfig {
    match retry
    case None => defaults
    case Some(r) =>
      Normalized(
        OrDefault(r.enabled, defaults.enabled), OrDefault(r.initialDelayMs, defaults.initialDelayMs),
        OrDefault(r.maxDelayMs, defaults.maxDelayMs), OrDefault(r.maxRetries, defaults.maxRetries))
  }

  /** x · 2ⁿ. */
  function Doubled(x: real, n: nat): real {
    if n == 0 then x else 2.0 * Doubled(x, n - 1)
  }

  lemma {:induction false} DoubledScales(x: real, n: nat)
    ensures Doubled(1.2 * x, n) == 1.2 * Doubled(x, n)
    ensures x > 0.0 ==> Doubled(x, n) > 0.0
    ensures x >= 0.0 ==> Doubled(x, n) >= 0.0
  {
    if n > 0 {
      DoubledScales(x, n - 1);
    }
  }

  /** The delay before jitter when nothing caps it. */
  function Uncapped(attempt: int, cfg: NormalizedRetryConfig): real {
    Doubled(cfg.initialDelayMs, if attempt < 0 then 0 else attempt)
  }

  function Base(attempt: int, cfg: NormalizedRetryConfig): real {
    if cfg.maxDelayMs <= Uncapped(attempt, cfg) then cfg.maxDelayMs else Uncapped(attempt, cfg)
  }

  /** `draw` stands for the value of `Math.random()`. */
  predicate Draw(draw: real) {
    0.0 <= draw < 1.0
  }

  /** A delay within a fifth of `base`, rounded down to whole milliseconds. */
  function Jittered(base: real, draw: real): int {
    var jitter := base * 0.2;
    var ms := (base - jitter + Spread(jitter, draw)).Floor;
    if ms < 0 then 0 else ms
  }

  function ComputeBackoffMs(attempt: int, cfg: NormalizedRetryConfig, draw: real): int {
    Jittered(Base(attempt, cfg), draw)
  }

  function Spread(jitter: real, draw: real): real {
    draw * jitter * 2.0
  }

  lemma {:induction false} JitterRange(jitter: real, draw: real)
    requires Draw(draw)
    ensures jitter > 0.0 ==> 0.0 <= Spread(jitter, draw) < jitter * 2.0
    ensures jitter <= 0.0 ==> Spread(jitter, draw) <= 0.0
  {
  }

  lemma {:induction false} JitteredBounds(base: real, draw: real)
    requires Draw(draw)
    ensures
      if base > 0.0 then (0.8 * base).Floor <= Jittered(base, draw) && Jittered(base, draw) as real < 1.2 * base
      else Jittered(base, draw) == 0
  {
    var spread := Spread(base * 0.2, draw);
    JitterRange(base * 0.2, draw);
    RoundedBounds(base, spread);
  }

  lemma {:induction false} RoundedBounds(base: real, spread: real)
    ensures 0.0 <= spread < 0.4 * base ==>
      && (0.8 * base).Floor <= (base - base * 0.2 + spread).Floor
      && ((base - base * 0.2 + spread).Floor as real) < 1.2 * base
    ensures base <= 0.0 && spread <= 0.0 ==> (base - base * 0.2 + spread).Floor <= 0
  {
  }

  /** Every draw lands within a fifth of the base, and the upper end is never reached. */
  lemma {:induction false} BackoffBounds(attempt: int, cfg: NormalizedRetryConfig, draw: real)
    requires Draw(draw)
    ensures
      var base, ms := Base(attempt, cfg), ComputeBackoffMs(attempt, cfg, draw);
      if base > 0.0 then (0.8 * base).Floor <= ms && ms as real < 1.2 * base
      else ms == 0
    ensures cfg.maxDelayMs >= 0.0 ==> ComputeBackoffMs(attempt, cfg, draw) as real <= 1.2 * cfg.maxDelayMs
  {
    var base := Base(attempt, cfg);
    assert base <= cfg.maxDelayMs;
    JitteredBounds(base, draw);
  }

  lemma {:induction false} FloorMonotone(x: real, y: real)
    requires x <= y
    ensures x.Floor <= y.Floor
  {
  }

  /** Once the base has grown by half, no draw of the later attempt undercuts any draw of the earlier one. */
  lemma {:induction false} GrowingBaseNeverDecreases(m: int, n: int, cfg: NormalizedRetryConfig, r: real, s: real)
    requires Draw(r) && Draw(s)
    requires 0.0 <= Base(m, cfg) && 1.5 * Base(m, cfg) <= Base(n, cfg)
    ensures ComputeBackoffMs(m, cfg, r) <= ComputeBackoffMs(n, cfg, s)
  {
    BackoffBounds(m, cfg, r);
    BackoffBounds(n, cfg, s);
    if Base(m, cfg) > 0.0 {
      assert 1.2 * Base(m, cfg) <= 0.8 * Base(n, cfg);
      FloorMonotone(ComputeBackoffMs(m, cfg, r) as real, 0.8 * Base(n, cfg));
    }
  }

  // ------------------------------------- when delays can shrink, exactly

  function Ceiling(x: real): int {
    -((-x).Floor)
  }

  /** The shortest delay around `base`. */
  function Smallest(base: real): int {
    if base <= 0.0 then 0 else (0.8 * base).Floor
  }

  /** The longest delay around `base`: the largest whole number below 1.2 · base. */
  function Largest(base: real): int {
    if base <= 0.0 then 0 else Ceiling(1.2 * base) - 1
  }

  lemma {:induction false} CeilingBounds(x: real)
    ensures x <= Ceiling(x) as real < x + 1.0
  {
    var y := -x;
    assert y.Floor as real <= y < y.Floor as real + 1.0;
  }

  /** Every delay lies between the two. */
  lemma {:induction false} JitteredRange(base: real, draw: real)
    requires Draw(draw)
    ensures Smallest(base) <= Jittered(base, draw) <= Largest(base)
  {
    JitteredBounds(base, draw);
    CeilingBounds(1.2 * base);
  }

  /** The shortest delay is drawn by zero. */
  lemma {:induction false} SmallestAttained(base: real)
    ensures Jittered(base, 0.0) == Smallest(base)
  {
    assert Spread(base * 0.2, 0.0) == 0.0;
    assert base - base * 0.2 + 0.0 == 0.8 * base;
    if base <= 0.0 {
      assert (0.8 * base).Floor as real <= 0.8 * base;
    }
  }

  lemma {:induction false} DrawFor(base: real, target: real) returns (draw: real)
    requires base > 0.0 && 0.8 * base <= target < 1.2 * base
    ensures Draw(draw) && base - base * 0.2 + Spread(base * 0.2, draw) == target
  {
    var width := 0.4 * base;
    var rest := target - 0.8 * base;
    draw := rest / width;
    assert draw * width == rest;
    SpreadIs(base, draw);
  }

  lemma {:induction false} SpreadIs(base: real, draw: real)
    ensures Spread(base * 0.2, draw) == draw * (0.4 * base)
  {
  }

  /** And some draw yields the longest. */
  lemma {:induction false} LargestAttained(base: real) returns (draw: real)
    ensures Draw(draw) && Jittered(base, draw) == Largest(base)
  {
    CeilingBounds(1.2 * base);
    if base <= 0.0 {
      draw := 0.0;
      SmallestAttained(base);
    } else if Largest(base) as real < 0.8 * base {
      draw := 0.0;
      SmallestAttained(base);
      JitteredRange(base, 0.0);
    } else {
      draw := DrawFor(base, Largest(base) as real);
    }
  }

  ghost predicate NeverDecreases(m: int, n: int, cfg: NormalizedRetryConfig) {
    forall r, s :: Draw(r) && Draw(s) ==> ComputeBackoffMs(m, cfg, r) <= ComputeBackoffMs(n, cfg, s)
  }

  /**
   For any two attempts and any configuration: no draw of attempt `n` undercuts any draw of attempt `m` if and only if
   the longest delay of `m` is at most the shortest of `n`.
   */
  lemma {:induction false} NeverDecreasesIff(m: int, n: int, cfg: NormalizedRetryConfig)
    ensures NeverDecreases(m, n, cfg) <==> Largest(Base(m, cfg)) <= Smallest(Base(n, cfg))
  {
    if NeverDecreases(m, n, cfg) {
      var r := LargestAttained(Base(m, cfg));
      SmallestAttained(Base(n, cfg));
      assert ComputeBackoffMs(m, cfg, r) <= ComputeBackoffMs(n, cfg, 0.0);
    }
    if Largest(Base(m, cfg)) <= Smallest(Base(n, cfg)) {
      forall r, s | Draw(r) && Draw(s) ensures ComputeBackoffMs(m, cfg, r) <= ComputeBackoffMs(n, cfg, s) {
        JitteredRange(Base(m, cfg), r);
        JitteredRange(Base(n, cfg), s);
      }
    }
  }

  /** Below the cap the condition always holds, for every pair of consecutive attempts. */
  lemma {:induction false} UncappedNeverDecreases(attempt: nat, cfg: NormalizedRetryConfig)
    requires 0.0 <= cfg.initialDelayMs && Uncapped(attempt + 1, cfg) <= cfg.maxDelayMs
    ensures NeverDecreases(attempt, attempt + 1, cfg)
  {
    DoubledScales(cfg.initialDelayMs, attempt);
    forall r, s | Draw(r) && Draw(s)
      ensures ComputeBackoffMs(attempt, cfg, r) <= ComputeBackoffMs(attempt + 1, cfg, s)
    {
      GrowingBaseNeverDecreases(attempt, attempt + 1, cfg, r, s);
    }
  }

  /** The condition fails where the cap cuts the last doubling short. */
  lemma {:induction false} CappedMayDecrease()
    ensures
      var cfg := Normalized(true, 1000.0, 1100.0, Infinity);
      ComputeBackoffMs(1, cfg, 0.0) < ComputeBackoffMs(0, cfg, 0.5) && !NeverDecreases(0, 1, cfg)
  {
    var cfg := Normalized(true, 1000.0, 1100.0, Infinity);
    assert Doubled(1000.0, 0) == 1000.0 && Doubled(1000.0, 1) == 2000.0;
    assert Largest(Base(0, cfg)) == 1199 && Smallest(Base(1, cfg)) == 880;
    NeverDecreasesIff(0, 1, cfg);
  }

  /** Between two attempts at the cap, delays never decrease if and only if every draw gives the same delay. */
  lemma {:induction false} AtTheCapIff(m: int, n: int, cfg: NormalizedRetryConfig)
    requires Base(m, cfg) == cfg.maxDelayMs == Base(n, cfg)
    ensures NeverDecreases(m, n, cfg) <==> Largest(cfg.maxDelayMs) == Smallest(cfg.maxDelayMs)
  {
    NeverDecreasesIff(m, n, cfg);
    SmallestAttained(cfg.maxDelayMs);
    JitteredRange(cfg.maxDelayMs, 0.0);
  }

  /** The waits numbered 0, 1, 2, … with the given draws. */
  function Waits(draws: seq<real>, cfg: NormalizedRetryConfig): (w: seq<int>)
    ensures |w| == |draws|
  {
    seq(|draws|, i requires 0 <= i < |draws| => ComputeBackoffMs(i, cfg, draws[i]))
  }

  lemma {:induction false} DoublingSum(waits: seq<int>, c: real)
    requires waits != []
    requires forall i :: 0 <= i < |waits| ==> waits[i] as real < Doubled(c, i)
    ensures Sum(waits) as real < Doubled(c, |waits|) - c
  {
    var n := |waits| - 1;
    var init := waits[..n];
    assert waits == init + [waits[n]];
    SumConcat(init, [waits[n]]);
    assert Sum([waits[n]]) == waits[n];
    if n > 0 {
      DoublingSum(init, c);
    }
  }

  /** The first n waits together stay below 1.2 · initial · (2ⁿ − 1). */
  lemma {:induction false} TotalWaitBound(draws: seq<real>, cfg: NormalizedRetryConfig)
    requires forall i :: 0 <= i < |draws| ==> Draw(draws[i])
    requires cfg.initialDelayMs > 0.0 && draws != []
    ensures Sum(Waits(draws, cfg)) as real < 1.2 * (Doubled(cfg.initialDelayMs, |draws|) - cfg.initialDelayMs)
  {
    forall i | 0 <= i < |draws|
      ensures Waits(draws, cfg)[i] as real < Doubled(1.2 * cfg.initialDelayMs, i)
    {
      BackoffBounds(i, cfg, draws[i]);
      DoubledScales(cfg.initialDelayMs, i);
    }
    DoublingSum(Waits(draws, cfg), 1.2 * cfg.initialDelayMs);
    DoubledScales(cfg.initialDelayMs, |draws|);
  }
}
