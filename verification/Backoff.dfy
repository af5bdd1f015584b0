/** Full-jitter exponential backoff, in microseconds. The random draw is an input. */
module Backoff {
  import opened Prelude

  const BASE: Time := 1_000_000
  const CAP: Time := 60_000_000

  function Pow2(n: nat): (p: nat)
    ensures p >= 1
  {
    if n == 0 then 1 else 2 * Pow2(n - 1)
  }

  /** The upper end of the interval the delay of retry `attempt` is drawn from. */
  function Bound(attempt: nat): Time { Min(CAP, BASE * Pow2(attempt)) }

  /** `random.uniform(0, bound)`: any point of the closed interval. */
  predicate ValidDraw(attempt: nat, delay: Time) { 0 <= delay <= Bound(attempt) }

  lemma {:induction false} BoundIsMonotone(i: nat, j: nat)
    requires i <= j
    ensures Bound(0) == BASE
    ensures Bound(0) <= Bound(i) <= Bound(j) <= CAP
    decreases j
  {
    if i < j {
      BoundIsMonotone(i, j - 1);
    } else if j > 0 {
      BoundIsMonotone(j - 1, j - 1);
    }
  }

  /** The bounds, in microseconds: doubling from a second until the minute caps them. */
  lemma BoundValues(n: nat)
    ensures n < 6 ==> Bound(n) == [1_000_000, 2_000_000, 4_000_000, 8_000_000, 16_000_000, 32_000_000][n]
    ensures n >= 6 ==> Bound(n) == 60_000_000
  {
    assert Pow2(2) == 4 && Pow2(4) == 16 && Pow2(6) == 64;
    if n >= 6 { Pow2Monotone(6, n); }
  }

  /** The sum of the first `n` bounds. */
  function BoundSum(n: nat): Time {
    if n == 0 then 0 else BoundSum(n - 1) + Bound(n - 1)
  }

  /** How many of the first `n` retries are not yet held down by the cap. */
  function Uncapped(n: nat): (k: nat)
    ensures k <= n
  {
    if n == 0 then 0
    else Uncapped(n - 1) + (if BASE * Pow2(n - 1) < CAP then 1 else 0)
  }

  lemma {:induction false} Pow2Monotone(i: nat, j: nat)
    requires i <= j
    ensures Pow2(i) <= Pow2(j)
    decreases j
  {
    if i < j { Pow2Monotone(i, j - 1); }
  }

  /** While a retry is still uncapped, every earlier one was too. */
  lemma {:induction false} UncappedIsPrefix(n: nat)
    requires n > 0 && BASE * Pow2(n - 1) < CAP
    ensures Uncapped(n) == n
  {
    if n > 1 {
      Pow2Monotone(n - 2, n - 1);
      UncappedIsPrefix(n - 1);
    }
  }

  /** The geometric part plus the capped part. */
  lemma {:induction false} BoundSumClosedForm(n: nat)
    ensures BoundSum(n) == BASE * (Pow2(Uncapped(n)) - 1) + CAP * (n - Uncapped(n))
  {
    if n > 0 {
      BoundSumClosedForm(n - 1);
      if BASE * Pow2(n - 1) < CAP {
        UncappedIsPrefix(n);
      }
    }
  }

  lemma {:induction false} BoundSumMonotone(i: nat, j: nat)
    requires i <= j
    ensures BoundSum(i) <= BoundSum(j)
    decreases j
  {
    if i < j {
      BoundSumMonotone(i, j - 1);
      BoundIsMonotone(j - 1, j - 1);
    }
  }
}
