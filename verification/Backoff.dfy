/**
 The delay before a retry: computeBackoff (internal/subscribe/strategy/retry.go), with reals for
 its floating point.  Delays are whole nanoseconds.
 */
module Backoff {

  datatype Config = Config(initialDelay: int, maxDelay: int, multiplier: real)

  /** What the options let through. */
  predicate Accepted(c: Config) {
    c.initialDelay > 0 && c.maxDelay > 0 && c.multiplier >= 1.0
  }

  /** A power, with a natural or a negative exponent. */
  function Power(base: real, exponent: int): (r: real)
    requires base >= 1.0
    ensures r > 0.0
    decreases if exponent < 0 then -exponent else exponent
  {
    if exponent == 0 then 1.0
    else if exponent > 0 then Positive(base, Power(base, exponent - 1)); base * Power(base, exponent - 1)
    else Shrinks(Power(base, exponent + 1), base); Power(base, exponent + 1) / base
  }

  lemma Positive(x: real, y: real)
    requires x > 0.0 && y > 0.0
    ensures x * y > 0.0
  {
  }

  lemma Shrinks(x: real, y: real)
    requires x > 0.0 && y >= 1.0
    ensures 0.0 < x / y <= x
  {
    assert x == (x / y) * y;
  }

  lemma Grows(x: real, y: real, product: real)
    requires x > 0.0 && y >= 1.0 && product == y * x
    ensures product >= x
  {
  }

  /** initialDelay * multiplier^(attempt-1). */
  function Exponential(c: Config, attempt: int): real
    requires Accepted(c)
  {
    c.initialDelay as real * Power(c.multiplier, attempt - 1)
  }

  /** The cap comes before the cut to a whole number. */
  function Capped(delay: real, max: int): int {
    if delay >= max as real then max else delay.Floor
  }

  function ComputeBackoff(c: Config, attempt: int): int
    requires Accepted(c)
  {
    Capped(Exponential(c, attempt), c.maxDelay)
  }

  lemma CappedMonotone(x: real, y: real, max: int)
    requires x <= y
    ensures Capped(x, max) <= Capped(y, max)
  {
    assert x.Floor as real <= x;
  }

  function Min(x: int, y: int): int {
    if x <= y then x else y
  }

  lemma PowerStep(base: real, exponent: int)
    requires base >= 1.0
    ensures Power(base, exponent - 1) <= Power(base, exponent)
  {
    var lower, upper := Power(base, exponent - 1), Power(base, exponent);
    if exponent > 0 {
      assert upper == base * lower;
      Grows(lower, base, upper);
    } else {
      assert lower == upper / base;
      Shrinks(upper, base);
    }
  }

  lemma {:induction false} PowerMonotone(base: real, low: int, high: int)
    requires base >= 1.0 && low <= high
    ensures Power(base, low) <= Power(base, high)
    decreases high - low
  {
    if low < high {
      PowerMonotone(base, low, high - 1);
      PowerStep(base, high);
    }
  }

  lemma Scaled(initial: int, low: real, high: real)
    requires initial > 0 && low <= high
    ensures initial as real * low <= initial as real * high
  {
  }

  /**
   Before the cap the delay is exponential: the initial delay at the first attempt, and from each
   attempt to the next it grows by the multiplier; what is returned is the cap, or the whole
   nanoseconds of it.
   */
  lemma BackoffIsExponential(c: Config, attempt: int)
    requires Accepted(c) && attempt >= 1
    ensures Exponential(c, 1) == c.initialDelay as real
    ensures Exponential(c, attempt + 1) == Exponential(c, attempt) * c.multiplier
    ensures var delay, d := Exponential(c, attempt), ComputeBackoff(c, attempt);
            if delay >= c.maxDelay as real then d == c.maxDelay else d as real <= delay < (d + 1) as real
  {
    var p := Power(c.multiplier, attempt - 1);
    assert Power(c.multiplier, attempt) == c.multiplier * p;
    Reorder(c.initialDelay as real, c.multiplier, p);
  }

  lemma Reorder(x: real, y: real, z: real)
    ensures x * (y * z) == (x * z) * y
  {
  }

  /** The delay never decreases with the attempt. */
  lemma BackoffMonotone(c: Config, a: int, b: int)
    requires Accepted(c) && a <= b
    ensures ComputeBackoff(c, a) <= ComputeBackoff(c, b)
  {
    PowerMonotone(c.multiplier, a - 1, b - 1);
    Scaled(c.initialDelay, Power(c.multiplier, a - 1), Power(c.multiplier, b - 1));
    CappedMonotone(Exponential(c, a), Exponential(c, b), c.maxDelay);
  }

  /** From the first attempt on, the delay lies between the initial delay and the cap, and it starts at the smaller of them. */
  lemma BackoffBounds(c: Config, attempt: int)
    requires Accepted(c)
    ensures 0 <= ComputeBackoff(c, attempt) <= c.maxDelay
    ensures ComputeBackoff(c, 1) == Min(c.initialDelay, c.maxDelay)
    ensures attempt >= 1 ==> Min(c.initialDelay, c.maxDelay) <= ComputeBackoff(c, attempt)
  {
    Positive(c.initialDelay as real, Power(c.multiplier, attempt - 1));
    if attempt >= 1 {
      BackoffMonotone(c, 1, attempt);
    }
  }

  /** One step of Bernoulli's inequality. */
  lemma BernoulliStep(growth: real, power: real, steps: real)
    requires growth >= 0.0 && steps >= 0.0 && power >= 1.0 + steps * growth
    ensures (1.0 + growth) * power >= 1.0 + (steps + 1.0) * growth
  {
    Product(1.0 + growth, power, 1.0 + steps * growth);
    Squared(growth, steps);
    assert (1.0 + growth) * (1.0 + steps * growth) == 1.0 + (steps + 1.0) * growth + steps * growth * growth;
  }

  /** Bernoulli's inequality. */
  lemma {:induction false} AtLeastLinear(base: real, n: nat)
    requires base >= 1.0
    ensures Power(base, n) >= 1.0 + n as real * (base - 1.0)
  {
    if n > 0 {
      AtLeastLinear(base, n - 1);
      BernoulliStep(base - 1.0, Power(base, n - 1), (n - 1) as real);
    }
  }

  lemma Product(x: real, y: real, z: real)
    requires x > 0.0 && y >= z
    ensures x * y >= x * z
  {
  }

  lemma Squared(x: real, n: real)
    requires x >= 0.0 && n >= 0.0
    ensures n * x * x >= 0.0
  {
    assert n * x >= 0.0;
  }

  /** How much the delay grows at least, each time. */
  function Growth(c: Config): (g: real)
    requires Accepted(c) && c.multiplier > 1.0
    ensures g > 0.0
  {
    Positive(c.initialDelay as real, c.multiplier - 1.0);
    c.initialDelay as real * (c.multiplier - 1.0)
  }

  /** An attempt from which the cap is reached for good. */
  function CapAttempt(c: Config): int
    requires Accepted(c) && c.multiplier > 1.0
  {
    (c.maxDelay as real / Growth(c)).Floor + 2
  }

  lemma Ratio(x: real, y: real)
    requires x > 0.0 && y > 0.0
    ensures x / y > 0.0 && y * (x / y) == x
  {
  }

  lemma Distribute(initial: real, steps: real, growth: real)
    ensures initial * (1.0 + steps * growth) == initial + (initial * growth) * steps
  {
  }

  /** A power that outgrows the line outgrows the cap. */
  lemma LineReaches(initial: real, rate: real, growth: real, max: real, steps: real, power: real)
    requires initial > 0.0 && growth == initial * rate > 0.0 && max > 0.0
    requires steps >= max / growth && power >= 1.0 + steps * rate
    ensures initial * power >= max
  {
    Product(initial, power, 1.0 + steps * rate);
    Distribute(initial, steps, rate);
    Ratio(max, growth);
    Product(growth, steps, max / growth);
  }

  lemma RoundedUp(x: real)
    ensures x <= (x.Floor + 1) as real
  {
  }

  lemma CapIsReached(c: Config)
    requires Accepted(c) && c.multiplier > 1.0
    ensures ComputeBackoff(c, CapAttempt(c)) == c.maxDelay
  {
    var max := c.maxDelay as real;
    Ratio(max, Growth(c));
    RoundedUp(max / Growth(c));
    var n := (max / Growth(c)).Floor + 1;
    AtLeastLinear(c.multiplier, n);
    LineReaches(c.initialDelay as real, c.multiplier - 1.0, Growth(c), max, n as real, Power(c.multiplier, n));
  }

  /** With a multiplier above 1 the delay ends at the cap and stays there; with 1 it never changes. */
  lemma BackoffReachesCap(c: Config, attempt: int)
    requires Accepted(c)
    ensures c.multiplier > 1.0 && attempt >= CapAttempt(c) ==> ComputeBackoff(c, attempt) == c.maxDelay
    ensures c.multiplier == 1.0 ==> ComputeBackoff(c, attempt) == Min(c.initialDelay, c.maxDelay)
  {
    if c.multiplier == 1.0 {
      PowerOfOne(attempt - 1);
    } else if attempt >= CapAttempt(c) {
      CapIsReached(c);
      BackoffMonotone(c, CapAttempt(c), attempt);
      BackoffBounds(c, attempt);
    }
  }

  lemma {:induction false} PowerOfOne(exponent: int)
    ensures Power(1.0, exponent) == 1.0
    decreases if exponent < 0 then -exponent else exponent
  {
    if exponent > 0 {
      PowerOfOne(exponent - 1);
    } else if exponent < 0 {
      PowerOfOne(exponent + 1);
    }
  }
}
