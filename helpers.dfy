/**
  Numeric helpers shared by the game loop: `clamp` and `smoothApproach`, plus
  the few `Math` functions the race rules use (abs, min, max, sign).
  Numbers are exact reals; the IEEE rounding of the source is not modelled.
 */
module Helpers {

  function Abs(x: real): real { if x < 0.0 then -x else x }

  /** Math.min of two numbers. */
  function Min(a: real, b: real): real { if a <= b then a else b }

  /** Math.max of two numbers. */
  function Max(a: real, b: real): real { if a >= b then a else b }

  /** Math.sign: -1, 0 or 1. */
  function Sign(x: real): (s: int)
    ensures s == -1 || s == 0 || s == 1
    ensures s as real * x == Abs(x)
  {
    if x > 0.0 then 1 else if x < 0.0 then -1 else 0
  }

  /**
    `clamp(value, min, max)` is `Math.min(max, Math.max(min, value))`: the
    value itself when it lies in [lo, hi], otherwise the bound it passed.
    With lo > hi the source returns hi, and so does this.
   */
  function Clamp(value: real, lo: real, hi: real): (r: real)
    ensures r <= hi
    ensures lo <= hi ==> lo <= r
    ensures lo <= value <= hi ==> r == value
    ensures value < lo && lo <= hi ==> r == lo
    ensures hi < value ==> r == hi
    ensures hi < lo ==> r == hi
  {
    Min(hi, Max(lo, value))
  }

  /**
    `smoothApproach(current, target, rate, delta)` moves `current` the
    fraction `factor` of the way to `target`; the source's factor is
    `1 - exp(-rate * delta)`, which lies in [0, 1) for a non-negative
    rate and time step. The result lies between the two values (so it is
    never farther from the target than `current` was) and reaches the
    target only when it started there.
   */
  function SmoothApproach(current: real, target: real, factor: real): (r: real)
    requires 0.0 <= factor < 1.0
    ensures current <= target ==> current <= r <= target
    ensures target <= current ==> target <= r <= current
    ensures r == target <==> current == target
    ensures factor == 0.0 ==> r == current
  {
    current + Scaled(target - current, factor)
  }

  /**
    The step `gap * factor` taken by SmoothApproach: it has the sign of
    `gap`, is no longer than `gap`, and is all of `gap` only when `gap` is 0.
   */
  function Scaled(gap: real, factor: real): (s: real)
    requires 0.0 <= factor < 1.0
    ensures gap >= 0.0 ==> 0.0 <= s <= gap
    ensures gap <= 0.0 ==> gap <= s <= 0.0
    ensures s == gap <==> gap == 0.0
    ensures factor == 0.0 ==> s == 0.0
  {
    if gap > 0.0 then
      ProductSigns(gap, factor);
      ProductSigns(gap, 1.0 - factor);
      gap * factor
    else if gap < 0.0 then
      ProductSigns(-gap, factor);
      ProductSigns(-gap, 1.0 - factor);
      gap * factor
    else
      gap * factor
  }

  /** A product of two non-negative numbers is non-negative. */
  lemma ProductNonNegative(x: real, y: real)
    requires x >= 0.0 && y >= 0.0
    ensures x * y >= 0.0
  {
  }

  /** Signs of a product of a positive and a non-negative number. */
  lemma ProductSigns(x: real, y: real)
    requires x > 0.0 && y >= 0.0
    ensures x * y >= 0.0
    ensures y > 0.0 ==> x * y > 0.0
  {
  }
}
