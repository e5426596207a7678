/** Retry delays: the saturating doubling loop of internal/retry/backoff.go on
    64-bit two's-complement durations, proved equal to exact arithmetic over
    the integers. All durations are nanoseconds. */
module Backoff {

  const TWO63 := 0x8000_0000_0000_0000
  const TWO64 := 0x1_0000_0000_0000_0000
  const SECOND := 1_000_000_000
  const MAX_DELAY := 300 * SECOND
  const MAX_JITTER := 250_000_000

  predicate Int64(x: int) { -TWO63 <= x < TWO63 }

  /** The value left in an int64 after an operation whose exact result is x. */
  function Wrap64(x: int): (w: int)
    ensures Int64(w)
    ensures Int64(x) ==> w == x
  {
    (x + TWO63) % TWO64 - TWO63
  }

  function Pow2(n: nat): (p: nat)
    ensures p >= 1
  {
    if n == 0 then 1 else 2 * Pow2(n - 1)
  }

  lemma {:induction false} Pow2Monotone(m: nat, n: nat)
    requires m <= n
    ensures Pow2(m) <= Pow2(n)
  {
    if m < n { Pow2Monotone(m, n - 1); }
  }

  function Min(a: int, b: int): int { if a <= b then a else b }

  function Max(a: int, b: int): int { if a >= b then a else b }

  /** The cap in force: a non-positive one falls back to MAX_DELAY. */
  function EffectiveCap(maxDelay: int): int {
    if maxDelay <= 0 then MAX_DELAY else maxDelay
  }

  /** The documented schedule, over the integers: min(base * 2^n, cap). */
  ghost function Scheduled(base: int, n: int, maxDelay: int): int {
    Min(Max(base, 0) * Pow2(Max(n, 0)), EffectiveCap(maxDelay))
  }

  /** The jitter drawn from a random 64-bit word. */
  function Jitter(maxJitter: int, word: nat): int {
    if maxJitter <= 0 then 0 else word % maxJitter
  }

  lemma ProductMonotone(b: nat, p: nat, q: nat)
    requires p <= q
    ensures b * p <= b * q
  {
  }

  lemma ScheduledAtCap(base: nat, i: nat, n: nat, cap: int)
    requires i <= n && base * Pow2(i) >= cap
    ensures base * Pow2(n) >= cap
  {
    Pow2Monotone(i, n);
    ProductMonotone(base, Pow2(i), Pow2(n));
  }

  /** The doubling loop never lets a wrapped product escape: what it leaves is
      the exact schedule, and the sum with the jitter is the only place where
      the 64-bit result can differ from the integer one. */
  method DelayAfterFailureCapped(base: int, n: int, maxJitter: int, maxDelay: int, word: nat)
      returns (delay: int)
    requires Int64(base) && Int64(n) && Int64(maxJitter) && Int64(maxDelay)
    ensures delay == Wrap64(Scheduled(base, n, maxDelay) + Jitter(maxJitter, word))
  {
    var n', base', cap := Max(n, 0), Max(base, 0), EffectiveCap(maxDelay);
    var d := base';
    var i := 0;
    while i < n'
      invariant 0 <= i <= n'
      invariant d == base' * Pow2(i) && (i > 0 ==> d < cap) && d < TWO63
    {
      if d >= cap {
        ScheduledAtCap(base', i, n', cap);
        d := cap;
        break;
      }
      assert base' * Pow2(i + 1) == 2 * d;
      d := Wrap64(d * 2);
      i := i + 1;
      if d < 0 || d >= cap {
        ScheduledAtCap(base', i, n', cap);
        d := cap;
        break;
      }
    }
    if d > cap {
      d := cap;
    }
    assert d == Scheduled(base, n, maxDelay);
    delay := d;
    if maxJitter > 0 {
      delay := Wrap64(d + Jitter(maxJitter, word));
    }
  }

  method DelayAfterFailure(base: int, n: int, maxJitter: int, word: nat) returns (delay: int)
    requires Int64(base) && Int64(n) && Int64(maxJitter)
    ensures delay == Wrap64(Scheduled(base, n, MAX_DELAY) + Jitter(maxJitter, word))
  {
    delay := DelayAfterFailureCapped(base, n, maxJitter, MAX_DELAY, word);
  }

  predicate ShouldExhaust(n: int, maxRetries: int) { n >= maxRetries }

  /** The schedule step by step: the first delay is the base, each next one doubles
      the last, and none goes below zero or beyond the cap, which is 300 s when none
      is given. */
  lemma ScheduleDoubles(base: int, n: nat, maxDelay: int)
    requires Int64(maxDelay)
    ensures var cap := if maxDelay > 0 then maxDelay else 300_000_000_000;
      && Scheduled(base, 0, maxDelay) == (if base <= 0 then 0 else if base < cap then base else cap)
      && Scheduled(base, n + 1, maxDelay)
         == (if 2 * Scheduled(base, n, maxDelay) < cap then 2 * Scheduled(base, n, maxDelay) else cap)
      && forall m: int :: m < 0 ==> Scheduled(base, m, maxDelay) == Scheduled(base, 0, maxDelay)
  {
    var b, cap := Max(base, 0), EffectiveCap(maxDelay);
    assert b * Pow2(0) == b;
    assert b * Pow2(n + 1) == 2 * (b * Pow2(n));
  }

  /** The jitter is the random word's remainder by the maximum. */
  lemma JitterIsARemainder(maxJitter: int, word: nat)
    ensures if maxJitter > 0 then
              && 0 <= Jitter(maxJitter, word) < maxJitter
              && exists q: nat :: word == q * maxJitter + Jitter(maxJitter, word)
            else Jitter(maxJitter, word) == 0
  {
    if maxJitter > 0 { assert word == (word / maxJitter) * maxJitter + Jitter(maxJitter, word); }
  }

  /** A wrapped value is in range and differs by a multiple of 2^64. */
  lemma WrapIsCongruent(x: int)
    ensures -0x8000_0000_0000_0000 <= Wrap64(x) < 0x8000_0000_0000_0000
    ensures exists q: int :: x == Wrap64(x) + q * 0x1_0000_0000_0000_0000
  {
    var q := (x + TWO63) / TWO64;
    assert x == Wrap64(x) + q * 0x1_0000_0000_0000_0000;
  }

  /** The jittered delay stays in its window [d, d + maxJitter) for every random
      word exactly when the end of the window still fits in 64 bits. */
  lemma JitterWindow(base: int, n: int, maxJitter: int, maxDelay: int)
    requires Int64(base) && Int64(n) && 0 < maxJitter < TWO63 && Int64(maxDelay)
    ensures (forall word: nat :: var d := Scheduled(base, n, maxDelay);
              d <= Wrap64(d + Jitter(maxJitter, word)) < d + maxJitter)
        <==> Int64(Scheduled(base, n, maxDelay) + maxJitter - 1)
  {
    ScheduledRange(base, n, maxDelay);
    WindowFits(Scheduled(base, n, maxDelay), maxJitter);
  }

  lemma WindowFits(d: int, maxJitter: int)
    requires 0 <= d < TWO63 && 0 < maxJitter < TWO63
    ensures (forall word: nat :: d <= Wrap64(d + Jitter(maxJitter, word)) < d + maxJitter)
        <==> Int64(d + maxJitter - 1)
  {
    if Int64(d + maxJitter - 1) {
      forall word: nat ensures d <= Wrap64(d + Jitter(maxJitter, word)) < d + maxJitter {
        assert 0 <= Jitter(maxJitter, word) < maxJitter;
      }
    } else {
      var word: nat := maxJitter - 1;
      assert Jitter(maxJitter, word) == word;
      assert Wrap64(d + word) == d + word - TWO64;
    }
  }

  /** A call whose jittered delay is negative: the cap is the largest 64-bit value
      and is reached at once. */
  lemma JitterOverflows(base: int)
    requires base == TWO63 - 1
    ensures Scheduled(base, 0, TWO63 - 1) == TWO63 - 1 && Jitter(2, 1) == 1
    ensures Wrap64(Scheduled(base, 0, TWO63 - 1) + Jitter(2, 1)) == -TWO63
  {
    assert Pow2(0) == 1;
  }

  /** With the daemon's own cap and jitter the window always fits. */
  lemma DaemonWindowFits(base: int, n: int, word: nat)
    requires Int64(base) && Int64(n)
    ensures var d := Scheduled(base, n, MAX_DELAY);
      d <= Wrap64(d + Jitter(MAX_JITTER, word)) < d + MAX_JITTER
  {
    ScheduledRange(base, n, MAX_DELAY);
    JitterWindow(base, n, MAX_JITTER, MAX_DELAY);
  }

  lemma ScheduledRange(base: int, n: int, maxDelay: int)
    requires Int64(maxDelay)
    ensures 0 <= Scheduled(base, n, maxDelay) <= EffectiveCap(maxDelay) < TWO63
  {
    ProductMonotone(Max(base, 0), 0, Pow2(Max(n, 0)));
  }

  /** Later attempts and larger bases never wait less. */
  lemma ScheduledMonotone(b1: int, b2: int, n1: int, n2: int, maxDelay: int)
    requires b1 <= b2 && n1 <= n2
    ensures Scheduled(b1, n1, maxDelay) <= Scheduled(b2, n2, maxDelay)
  {
    var x1, x2 := Max(b1, 0), Max(b2, 0);
    var p1, p2 := Pow2(Max(n1, 0)), Pow2(Max(n2, 0));
    Pow2Monotone(Max(n1, 0), Max(n2, 0));
    assert x1 * p1 <= x1 * p2 by { ProductMonotone(x1, p1, p2); }
    assert p2 * x1 <= p2 * x2 by { ProductMonotone(p2, x1, x2); }
  }

  /** The delay the daemon schedules after failed attempt n. */
  function DaemonDelayFloor(base: nat, n: nat): (d: nat)
    ensures d == Scheduled(base, n, MAX_DELAY)
  {
    ProductMonotone(base, 0, Pow2(n));
    Min(base * Pow2(n), MAX_DELAY)
  }
}
