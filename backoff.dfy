/**
 * Backoff calculator: `exponentialDelay`, the default `retryDelay`. The value
 * `Math.random()` returned is the parameter `random`, a number in [0, 1).
 */
module Backoff {

  function Pow2(k: nat): (p: nat)
    ensures p >= 1
  {
    if k == 0 then 1 else 2 * Pow2(k - 1)
  }

  /** The deterministic part of the delay for retry number `k`: 2^k * 100 milliseconds. */
  function Base(k: nat): (b: nat)
    ensures b >= 100 && b % 100 == 0
  {
    Pow2(k) * 100
  }

  /** Each further retry doubles the base. */
  lemma BaseDoubles(k: nat)
    ensures Base(k + 1) == 2 * Base(k)
  {
  }

  /** The base grows strictly with the retry number. */
  lemma {:induction false} BaseStrictlyIncreasing(j: nat, k: nat)
    requires j < k
    ensures Base(j) < Base(k)
  {
    BaseDoubles(k - 1);
    if j < k - 1 {
      BaseStrictlyIncreasing(j, k - 1);
    }
  }

  /**
   * `exponentialDelay(retryNumber)`: the base plus a jitter of 0-20% of it, so the
   * delay lies in [base, 1.2 * base).
   */
  function ExponentialDelay(retryNumber: nat, random: real): (d: real)
    requires 0.0 <= random < 1.0
    ensures Base(retryNumber) as real <= d
    ensures d - Base(retryNumber) as real < Base(retryNumber) as real / 5.0
  {
    var delay := Base(retryNumber) as real;
    delay + Jitter(delay, random)
  }

  /** `delay * 0.2 * Math.random()`: 0-20% of the delay. */
  function Jitter(delay: real, random: real): (j: real)
    requires delay > 0.0 && 0.0 <= random < 1.0
    ensures 0.0 <= j < delay / 5.0
  {
    JitterBelowFifth(delay, random);
    delay * 0.2 * random
  }

  /** 0-20% of a positive delay is below a fifth of it. */
  lemma JitterBelowFifth(delay: real, random: real)
    requires delay > 0.0 && 0.0 <= random < 1.0
    ensures 0.0 <= delay * 0.2 * random < delay / 5.0
  {
  }

  /**
   * Whatever the jitter, every delay for a later retry is longer than every delay
   * for an earlier one, since 1.2 * base(j) < 2 * base(j) <= base(k).
   */
  lemma {:induction false} DelayIncreases(j: nat, k: nat, randomJ: real, randomK: real)
    requires j < k
    requires 0.0 <= randomJ < 1.0 && 0.0 <= randomK < 1.0
    ensures ExponentialDelay(j, randomJ) < ExponentialDelay(k, randomK)
  {
    BaseDoubles(j);
    if j + 1 < k {
      BaseStrictlyIncreasing(j + 1, k);
    }
  }
}
