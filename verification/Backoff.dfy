/** The retry schedule of the job queue (internal/domain/job.go), in nanoseconds. */
module Backoff {
  import opened Prelude

  const SECOND := 1_000_000_000

  const MINUTE := 60 * SECOND

  function Pow2(n: nat): (r: int)
    ensures 1 <= r
  {
    if n == 0 then 1 else 2 * Pow2(n - 1)
  }

  /** The source scales in float64, which is exact here: a power of two times an integer
      below 2^53 needs no rounding. */
  function Delay(attempt: int, base: int, max: int): int {
    var a := Max(1, attempt);
    var b := if base <= 0 then SECOND else base;
    var m := if max <= 0 || max < b then b else max;
    var scaled := b * Pow2(Min(a - 1, 16));
    if scaled > m then m else scaled
  }

  function StaleLockCutoff(now: int, lease: int): int {
    now - if lease <= 0 then MINUTE else lease
  }

  lemma {:induction false} Pow2Monotone(m: nat, n: nat)
    requires m <= n
    ensures Pow2(m) <= Pow2(n)
  {
    if m < n {
      Pow2Monotone(m, n - 1);
    }
  }

  lemma ScaleMonotone(b: int, x: int, y: int)
    requires 0 <= b && x <= y
    ensures b * x <= b * y
  {
  }

  /** Whatever the arguments, the delay lies between the effective base and the effective cap. */
  lemma DelayWithinBounds(attempt: int, base: int, max: int)
    ensures var b := if base <= 0 then SECOND else base;
      b <= Delay(attempt, base, max) <= Max(b, max)
  {
    hide Pow2;
    var b := if base <= 0 then SECOND else base;
    ScaleMonotone(b, 1, Pow2(Min(Max(1, attempt) - 1, 16)));
  }

  /** A later attempt never waits less. */
  lemma DelayMonotone(a1: int, a2: int, base: int, max: int)
    requires a1 <= a2
    ensures Delay(a1, base, max) <= Delay(a2, base, max)
  {
    hide Pow2;
    var b := if base <= 0 then SECOND else base;
    var s1, s2 := Min(Max(1, a1) - 1, 16), Min(Max(1, a2) - 1, 16);
    Pow2Monotone(s1, s2);
    ScaleMonotone(b, Pow2(s1), Pow2(s2));
  }

  lemma Pow2Step(n: nat)
    ensures Pow2(0) == 1 && Pow2(n + 1) == 2 * Pow2(n)
  {
  }

  lemma DoubleProduct(b: int, x: int)
    ensures b * (2 * x) == 2 * (b * x) && b * 1 == b
  {
  }

  /** The schedule starts at the base, doubles until it meets the cap, and stops doubling after
      17 attempts; without a usable base it starts at a second, without a usable cap it stays
      at the base. */
  lemma DelayDoubles(attempt: int, base: int, max: int)
    ensures var b := if 0 < base then base else 1_000_000_000;
      (attempt <= 1 ==> Delay(attempt, base, max) == b)
      && (1 <= attempt ==>
            Delay(attempt + 1, base, max)
            == if attempt <= 16 then Min(Max(b, max), 2 * Delay(attempt, base, max)) else Delay(attempt, base, max))
  {
    hide Pow2;
    var b := if 0 < base then base else SECOND;
    Pow2Step(Min(Max(1, attempt) - 1, 16));
    DoubleProduct(b, Pow2(Min(Max(1, attempt) - 1, 16)));
    ScaleMonotone(b, 1, Pow2(Min(Max(1, attempt) - 1, 16)));
  }

  /** Total waiting before attempt n + 1, when the first n attempts failed. */
  function TotalDelay(n: nat, base: int, max: int): int {
    if n == 0 then 0 else TotalDelay(n - 1, base, max) + Delay(n, base, max)
  }

  lemma Distribute(a: int, b: int, c: int)
    ensures (a + b) * c == a * c + b * c
  {
  }

  lemma DelayBelowUncapped(attempt: nat, base: int, max: int)
    requires 1 <= attempt && 0 < base <= max
    ensures Delay(attempt, base, max) <= Pow2(attempt - 1) * base
  {
    hide Pow2;
    Pow2Monotone(Min(attempt - 1, 16), attempt - 1);
    ScaleMonotone(base, Pow2(Min(attempt - 1, 16)), Pow2(attempt - 1));
  }

  /** A poisoned job waits at most n caps, and at most as long as an uncapped schedule would. */
  lemma {:induction false} TotalDelayBounded(n: nat, base: int, max: int)
    requires 0 < base <= max
    ensures n * base <= TotalDelay(n, base, max) <= n * max
    ensures TotalDelay(n, base, max) <= (Pow2(n) - 1) * base
  {
    hide Delay;
    if n > 0 {
      TotalDelayBounded(n - 1, base, max);
      DelayWithinBounds(n, base, max);
      DelayBelowUncapped(n, base, max);
      Distribute(Pow2(n - 1) - 1, Pow2(n - 1), base);
      Distribute(n - 1, 1, max);
      Distribute(n - 1, 1, base);
    }
  }
}
