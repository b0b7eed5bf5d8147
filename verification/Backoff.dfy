/** Arithmetic of the backoff delays: monotone, capped, and summing below two closed bounds. */
module Backoff {
  import opened Collections
  import opened RetryMachine

  /** The configurations the backoff is meant for: it grows from a non-negative delay to a cap. */
  predicate Growing(cfg: Config) {
    cfg.initialDelayMs >= 0.0 && cfg.maxDelayMs >= 0.0 && cfg.backoffMultiplier >= 1.0
  }

  predicate Sane(o: Overrides) {
    && (o.initialDelayMs.Some? ==> o.initialDelayMs.value >= 0.0)
    && (o.maxDelayMs.Some? ==> o.maxDelayMs.value >= 0.0)
    && (o.backoffMultiplier.Some? ==> o.backoffMultiplier.value >= 1.0)
  }

  /** The defaults are such a configuration, and stay one exactly under overrides that are themselves. */
  lemma DefaultsGrow(o: Option<Overrides>)
    ensures Growing(Resolve(o)) <==> o.None? || Sane(o.value)
  {
  }

  /** The sum of the first n delays. */
  function SumDelays(cfg: Config, n: nat): real {
    if n == 0 then 0.0 else SumDelays(cfg, n - 1) + Delay(cfg, n)
  }

  lemma {:induction false} PowGrows(b: real, m: nat, n: nat)
    requires b >= 1.0 && m <= n
    ensures 1.0 <= Pow(b, m) <= Pow(b, n)
    decreases n
  {
    if n > 0 {
      PowGrows(b, if m < n then m else m - 1, n - 1);
      if m == n {
        assert b * Pow(b, n - 1) >= 1.0 * Pow(b, n - 1);
      } else {
        assert b * Pow(b, n - 1) >= 1.0 * Pow(b, n - 1);
      }
    }
  }

  lemma Scale(c: real, x: real, y: real)
    requires c >= 0.0 && x <= y
    ensures c * x <= c * y
  {
  }

  lemma ScaledGrows(c: real, b: real, m: nat, n: nat)
    requires c >= 0.0 && b >= 1.0 && m <= n
    ensures 0.0 <= Scaled(c, b, m) <= Scaled(c, b, n)
  {
    PowGrows(b, m, n);
    Scale(c, Pow(b, m), Pow(b, n));
    Scale(c, 0.0, Pow(b, m));
  }

  /** A later attempt never waits less than an earlier one, and no wait exceeds the cap. */
  lemma DelaysGrowToCap(cfg: Config, i: Ordinal, j: Ordinal)
    requires Growing(cfg) && i <= j
    ensures 0.0 <= Delay(cfg, i) <= Delay(cfg, j) <= cfg.maxDelayMs
  {
    ScaledGrows(cfg.initialDelayMs, cfg.backoffMultiplier, i - 1, j - 1);
  }

  lemma {:induction false} SumBelowLinear(cfg: Config, n: nat)
    requires Growing(cfg)
    ensures 0.0 <= SumDelays(cfg, n) <= n as real * cfg.maxDelayMs
  {
    if n > 0 {
      SumBelowLinear(cfg, n - 1);
      DelaysGrowToCap(cfg, n, n);
      assert n as real * cfg.maxDelayMs == (n - 1) as real * cfg.maxDelayMs + cfg.maxDelayMs;
    }
  }

  /** The closed form, by the power itself. */
  function Closed(c: real, b: real, p: real, n: nat): real {
    if b == 1.0 then c * n as real else c * (p - 1.0) / (b - 1.0)
  }

  lemma ClosedStep(c: real, b: real, p: real, n: nat)
    requires b >= 1.0 && n > 0 && (b == 1.0 ==> p == 1.0)
    ensures Closed(c, b, b * p, n) == Closed(c, b, p, n - 1) + c * p
  {
    if b == 1.0 {
      assert c * n as real == c * (n - 1) as real + c;
    } else {
      assert c * (b * p - 1.0) == c * (p - 1.0) + (c * p) * (b - 1.0);
      assert (c * p) * (b - 1.0) / (b - 1.0) == c * p;
    }
  }

  /** initial * (1 + multiplier + ... + multiplier^(n-1)) in closed form. */
  function Geometric(cfg: Config, n: nat): real {
    Closed(cfg.initialDelayMs, cfg.backoffMultiplier, Pow(cfg.backoffMultiplier, n), n)
  }

  lemma GeometricStep(cfg: Config, n: nat)
    requires Growing(cfg) && n > 0
    ensures Geometric(cfg, n) == Geometric(cfg, n - 1) + Scaled(cfg.initialDelayMs, cfg.backoffMultiplier, n - 1)
  {
    var b := cfg.backoffMultiplier;
    if b == 1.0 { AllOnes(n - 1); }
    ClosedStep(cfg.initialDelayMs, b, Pow(b, n - 1), n);
  }

  lemma {:induction false} AllOnes(n: nat)
    ensures Pow(1.0, n) == 1.0
  {
    if n > 0 { AllOnes(n - 1); }
  }

  /** The pauses of n retries together stay below n caps and below the uncapped geometric sum. */
  lemma {:induction false} SumBelowGeometric(cfg: Config, n: nat)
    requires Growing(cfg)
    ensures SumDelays(cfg, n) <= Geometric(cfg, n)
    ensures SumDelays(cfg, n) <= n as real * cfg.maxDelayMs
  {
    SumBelowLinear(cfg, n);
    if n > 0 {
      SumBelowGeometric(cfg, n - 1);
      GeometricStep(cfg, n);
    }
  }

  lemma {:induction false} SumGrows(cfg: Config, m: nat, n: nat)
    requires Growing(cfg) && m <= n
    ensures SumDelays(cfg, m) <= SumDelays(cfg, n)
    decreases n
  {
    if m < n {
      SumGrows(cfg, m, n - 1);
      DelaysGrowToCap(cfg, n, n);
    }
  }
}
