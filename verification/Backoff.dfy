/** Exponential backoff in 64-bit signed nanoseconds, where a left shift drops the high bits. */
module Backoff {
  import opened Numbers

  const SHIFT_LIMIT: nat := 30
  const TWO_30: int := 0x4000_0000
  const TWO_34: int := 0x4_0000_0000
  const TWO_63: int := 0x8000_0000_0000_0000

  /** The value an unbounded integer has once stored in an int64. */
  function Wrap64(x: int): (r: int)
    ensures -TWO_63 <= r < TWO_63
  {
    var low := x % TWO_64;
    if low < TWO_63 then low else low - TWO_64
  }

  function ShiftLeft(x: int, shift: nat): int {
    Wrap64(x * Pow2(shift))
  }

  /** `backoffDelay` as a function of the counter it reads. */
  function Delay(start: int, max: int, n: nat): int {
    var d := ShiftLeft(start, Min(n, SHIFT_LIMIT));
    if d > max || d <= 0 then max else d
  }

  /** What the documentation promises: doubling from the start, at most thirty times, capped. */
  function CappedDoubling(start: int, max: int, n: nat): int {
    Min(start * Pow2(Min(n, SHIFT_LIMIT)), max)
  }

  ghost predicate ValidTiming(start: int, max: int) {
    0 < start <= max < TWO_63
  }

  lemma {:induction false} Pow2Grows(m: nat, n: nat)
    requires m <= n
    ensures Pow2(m) <= Pow2(n)
    decreases n
  {
    if m < n {
      Pow2Grows(m, n - 1);
    }
  }

  lemma Pow2Thirty()
    ensures Pow2(SHIFT_LIMIT) == TWO_30
  {
    assert Pow2(10) == 1024;
    Pow2Adds(10, 10);
    Pow2Adds(20, 10);
  }

  lemma ShiftBound(n: nat)
    ensures 1 <= Pow2(Min(n, SHIFT_LIMIT)) <= TWO_30
  {
    Pow2Thirty();
    Pow2Grows(Min(n, SHIFT_LIMIT), SHIFT_LIMIT);
  }

  lemma ProductBounds(x: int, y: int, xHigh: int, yHigh: int)
    requires 0 < x <= xHigh && 1 <= y <= yHigh
    ensures x <= x * y <= xHigh * yHigh
  {
    assert x * 1 <= x * y;
    assert x * y <= x * yHigh <= xHigh * yHigh;
  }

  /** The delay is the promised one if and only if the overflow guard catches what wrapped. */
  lemma DelayIsPromisedIffGuardCatchesWrap(start: int, max: int, n: nat)
    requires ValidTiming(start, max)
    ensures var raw := start * Pow2(Min(n, SHIFT_LIMIT));
            Delay(start, max, n) == CappedDoubling(start, max, n)
            <==> raw < TWO_63 || Wrap64(raw) <= 0 || Wrap64(raw) >= max
  {
    ShiftBound(n);
    ProductBounds(start, Pow2(Min(n, SHIFT_LIMIT)), start, TWO_30);
  }

  /** Up to 2^34 ns of start nothing that wraps escapes the guard. */
  lemma DelayIsCappedDoubling(start: int, max: int, n: nat)
    requires ValidTiming(start, max) && start <= TWO_34
    ensures Delay(start, max, n) == CappedDoubling(start, max, n)
  {
    ShiftBound(n);
    ProductBounds(start, Pow2(Min(n, SHIFT_LIMIT)), TWO_34, TWO_30);
    assert TWO_34 * TWO_30 == TWO_64;
    DelayIsPromisedIffGuardCatchesWrap(start, max, n);
  }

  /** Between confirms the counter only grows, and the delays with it, within [start, max]. */
  lemma DelayGrowsWithinBounds(start: int, max: int, m: nat, n: nat)
    requires ValidTiming(start, max) && start <= TWO_34 && m <= n
    ensures start <= Delay(start, max, m) <= Delay(start, max, n) <= max
  {
    DelayIsCappedDoubling(start, max, m);
    DelayIsCappedDoubling(start, max, n);
    Pow2Grows(Min(m, SHIFT_LIMIT), Min(n, SHIFT_LIMIT));
    Scaled(start, Pow2(Min(m, SHIFT_LIMIT)), Pow2(Min(n, SHIFT_LIMIT)));
  }

  lemma Scaled(x: int, a: int, b: int)
    requires x > 0 && 1 <= a <= b
    ensures x <= x * a <= x * b
  {
    ProductBounds(x, a, x, a);
    assert x * b == x * a + x * (b - a);
  }

  lemma DelayIsPositive(start: int, max: int, n: nat)
    requires ValidTiming(start, max)
    ensures 0 < Delay(start, max, n) <= max
  {
  }

  /** The bound is tight, whatever the maximum: one nanosecond more wraps to a delay below the start. */
  lemma BoundIsTight(max: int)
    requires ValidTiming(TWO_34 + 1, max)
    ensures Delay(TWO_34 + 1, max, SHIFT_LIMIT) == TWO_30 < TWO_34 + 1 <= CappedDoubling(TWO_34 + 1, max, SHIFT_LIMIT)
  {
    Pow2Thirty();
    assert (TWO_34 + 1) * TWO_30 == TWO_64 + TWO_30;
    assert Wrap64(TWO_64 + TWO_30) == TWO_30;
  }
}
