/** kis/ws/backoff.go over the reals: durations are whole nanoseconds, the random draw is an input. */
module Backoff {
  const DEFAULT_MIN: int := 500_000_000
  const DEFAULT_MAX: int := 30_000_000_000

  datatype BackoffConfig = BackoffConfig(min: int, max: int, factor: real, jitter: real)

  /** What a caller may rely on once defaults are filled in; a negative jitter means none. */
  predicate Normal(b: BackoffConfig) {
    0 < b.min <= b.max && b.factor >= 1.0 && b.jitter != 0.0 && b.jitter <= 1.0
  }

  function Normalized(b: BackoffConfig): (n: BackoffConfig)
    ensures Normal(n)
    ensures Normal(b) ==> n == b
  {
    var min := if b.min <= 0 then DEFAULT_MIN else b.min;
    var max := if b.max <= 0 then DEFAULT_MAX else b.max;
    var factor := if b.factor < 1.0 then 2.0 else b.factor;
    var jitter := if b.jitter == 0.0 then 0.2 else b.jitter;
    BackoffConfig(min, if max < min then min else max, factor, if jitter > 1.0 then 1.0 else jitter)
  }

  /** Filling in defaults twice changes nothing more. */
  lemma NormalizedIdempotent(b: BackoffConfig)
    ensures Normalized(Normalized(b)) == Normalized(b)
    ensures Normalized(b) == b <==> Normal(b)
  {}

  function Pow(x: real, n: nat): real {
    if n == 0 then 1.0 else x * Pow(x, n - 1)
  }

  function Raw(b: BackoffConfig, n: nat): real {
    b.min as real * Pow(b.factor, n)
  }

  function Retries(attempt: int): nat {
    if attempt < 1 then 0 else attempt - 1
  }

  /** Exponential growth up to the ceiling. */
  function Capped(b: BackoffConfig, attempt: int): real {
    var raw := Raw(b, Retries(attempt));
    if raw > b.max as real then b.max as real else raw
  }

  /** The delay before truncation to whole nanoseconds; draw is uniform in [0, 1). */
  function Grown(b: BackoffConfig, attempt: int, draw: real): real {
    var capped := Capped(b, attempt);
    var jittered := if b.jitter > 0.0 then capped - capped * b.jitter * draw else capped;
    if jittered < b.min as real then b.min as real else jittered
  }

  function Delay(b: BackoffConfig, attempt: int, draw: real): int {
    Grown(b, attempt, draw).Floor
  }

  lemma {:induction false} PowAtLeastOne(x: real, n: nat)
    requires x >= 1.0
    ensures Pow(x, n) >= 1.0
  {
    if n > 0 {
      PowAtLeastOne(x, n - 1);
    }
  }

  lemma {:induction false} PowMonotone(x: real, m: nat, n: nat)
    requires x >= 1.0 && m <= n
    ensures Pow(x, m) <= Pow(x, n)
  {
    if m < n {
      PowMonotone(x, m, n - 1);
      PowAtLeastOne(x, n - 1);
    }
  }

  lemma ScaleMonotone(a: real, x: real, y: real)
    requires a >= 0.0 && x <= y
    ensures a * x <= a * y
  {}

  lemma RawMonotone(b: BackoffConfig, m: nat, n: nat)
    requires Normal(b) && m <= n
    ensures b.min as real == Raw(b, 0) <= Raw(b, m) <= Raw(b, n)
  {
    PowMonotone(b.factor, 0, m);
    PowMonotone(b.factor, m, n);
    ScaleMonotone(b.min as real, Pow(b.factor, 0), Pow(b.factor, m));
    ScaleMonotone(b.min as real, Pow(b.factor, m), Pow(b.factor, n));
  }

  /** Jitter only ever takes away. */
  lemma JitterShrinks(capped: real, jitter: real, draw: real)
    requires capped >= 0.0 && jitter > 0.0 && 0.0 <= draw
    ensures capped - capped * jitter * draw <= capped
  {
    assert capped * jitter >= 0.0;
    assert capped * jitter * draw >= 0.0;
  }

  /** Every delay of a normalised config, for every attempt and draw, lies between Min and Max. */
  lemma DelayWithinBounds(config: BackoffConfig, attempt: int, draw: real)
    requires 0.0 <= draw < 1.0
    ensures var b := Normalized(config); b.min <= Delay(b, attempt, draw) <= b.max
  {
    var b := Normalized(config);
    GrownWithinBounds(b, attempt, draw);
    FloorMonotone(b.min as real, Grown(b, attempt, draw));
    FloorMonotone(Grown(b, attempt, draw), b.max as real);
  }

  lemma GrownWithinBounds(b: BackoffConfig, attempt: int, draw: real)
    requires Normal(b) && 0.0 <= draw < 1.0
    ensures b.min as real <= Grown(b, attempt, draw) <= b.max as real
  {
    RawMonotone(b, 0, Retries(attempt));
    var capped := Capped(b, attempt);
    assert b.min as real <= capped <= b.max as real;
    if b.jitter > 0.0 {
      JitterShrinks(capped, b.jitter, draw);
    }
  }

  /** Without jitter a later attempt never waits less: a long outage settles, it does not oscillate. */
  lemma DelayMonotone(config: BackoffConfig, earlier: int, later: int, draw: real, draw': real)
    requires earlier <= later && config.jitter < 0.0
    ensures var b := Normalized(config); Delay(b, earlier, draw) <= Delay(b, later, draw')
  {
    var b := Normalized(config);
    RawMonotone(b, Retries(earlier), Retries(later));
    assert Capped(b, earlier) <= Capped(b, later);
    FloorMonotone(Grown(b, earlier, draw), Grown(b, later, draw'));
  }

  lemma FloorMonotone(x: real, y: real)
    requires x <= y
    ensures x.Floor <= y.Floor
  {}

  lemma BernoulliStep(x: real, m: real, power: real)
    requires x >= 0.0 && m >= 0.0 && power >= 1.0 + m * x
    ensures (1.0 + x) * power >= 1.0 + (m + 1.0) * x
  {
    ScaleMonotone(1.0 + x, 1.0 + m * x, power);
    var square := x * x;
    assert square >= 0.0 && m * square >= 0.0;
    assert (1.0 + x) * (1.0 + m * x) == 1.0 + m * x + x + x * (m * x);
    assert x * (m * x) == m * square;
  }

  /** Bernoulli's inequality. */
  lemma {:induction false} Bernoulli(x: real, n: nat)
    requires x >= 0.0
    ensures Pow(1.0 + x, n) >= 1.0 + n as real * x
  {
    if n > 0 {
      Bernoulli(x, n - 1);
      BernoulliStep(x, (n - 1) as real, Pow(1.0 + x, n - 1));
      assert n as real == (n - 1) as real + 1.0;
    }
  }

  function Ceil(x: real): int {
    0 - (0.0 - x).Floor
  }

  /** The first attempt that certainly waits the maximum. */
  function Saturation(b: BackoffConfig): int
    requires b.min > 0 && b.factor > 1.0
  {
    1 + Ceil((b.max as real / b.min as real - 1.0) / (b.factor - 1.0))
  }

  lemma SaturationReached(b: BackoffConfig, n: nat)
    requires Normal(b) && b.factor > 1.0 && n >= Saturation(b) - 1
    ensures Raw(b, n) >= b.max as real
  {
    var x, ratio := b.factor - 1.0, b.max as real / b.min as real;
    assert n as real >= (ratio - 1.0) / x;
    ScaleMonotone(x, (ratio - 1.0) / x, n as real);
    assert x * ((ratio - 1.0) / x) == ratio - 1.0;
    Bernoulli(x, n);
    ScaleMonotone(b.min as real, ratio, Pow(b.factor, n));
    assert b.min as real * ratio == b.max as real;
  }

  /** With a growing factor and no jitter the delay is exactly Max from attempt Saturation on. */
  lemma DelaySaturates(config: BackoffConfig, attempt: int, draw: real)
    requires config.jitter < 0.0 && Normalized(config).factor > 1.0
    requires attempt >= Saturation(Normalized(config))
    ensures Delay(Normalized(config), attempt, draw) == Normalized(config).max
  {
    var b := Normalized(config);
    SaturationReached(b, Retries(attempt));
  }
}
