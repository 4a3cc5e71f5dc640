/**
  Exact decimal arithmetic as java.math.BigDecimal performs it: values are
  exact rationals, and the only loss of precision is an explicit rounding to
  a number of fractional digits (a "scale") with RoundingMode.HALF_UP, which
  rounds to the nearest value at that scale and breaks ties away from zero.

  Rounding is defined on the unscaled value x * 10^scale, where it is rounding
  to an integer; the facts that need a multiplication or a division by
  10^scale are kept in small lemmas of their own.
*/
module Decimal {

  function Pow10(n: nat): (p: nat)
    ensures p >= 1
  {
    if n == 0 then 1 else 10 * Pow10(n - 1)
  }

  /** `x` scaled by 10^scale: its unscaled value. */
  function Unscaled(x: real, scale: nat): real
  {
    x * Pow10(scale) as real
  }

  /** Half a unit in the last place at `scale`: the largest error HALF_UP makes. */
  function HalfUlp(scale: nat): (h: real)
    ensures h > 0.0
  {
    0.5 / Pow10(scale) as real
  }

  /** True when `y` has at most `scale` fractional digits. */
  predicate AtScale(y: real, scale: nat)
  {
    Unscaled(y, scale).Floor as real == Unscaled(y, scale)
  }

  /**
    Reference definition of HALF_UP to an integer: `k` is nearest to `t`, and
    a tie goes to the neighbour farther from zero.
  */
  ghost predicate IsHalfUpInt(k: int, t: real)
  {
    if t >= 0.0 then k as real - 0.5 <= t < k as real + 0.5
    else k as real - 0.5 < t <= k as real + 0.5
  }

  /**
    Reference definition of HALF_UP at a scale: `y` is `x` rounded to `scale`
    fractional digits when the unscaled value of `y` is an integer that is the
    HALF_UP rounding of the unscaled value of `x`.
  */
  ghost predicate IsHalfUp(y: real, x: real, scale: nat)
  {
    AtScale(y, scale) && IsHalfUpInt(Unscaled(y, scale).Floor, Unscaled(x, scale))
  }

  /** HALF_UP rounding of `t` to an integer. */
  function HalfUpInt(t: real): (k: int)
    ensures IsHalfUpInt(k, t)
  {
    if t >= 0.0 then (t + 0.5).Floor else -((-t + 0.5).Floor)
  }

  /** BigDecimal rounding of the exact value `x` to `scale` digits, HALF_UP. */
  function RoundHalfUp(x: real, scale: nat): (y: real)
    ensures IsHalfUp(y, x, scale)
    ensures -HalfUlp(scale) <= y - x <= HalfUlp(scale)
  {
    var k := HalfUpInt(Unscaled(x, scale));
    UnscaleScaled(k, scale);
    ErrorBound(k, x, scale);
    k as real / Pow10(scale) as real
  }

  /** BigDecimal.divide(divisor, scale, HALF_UP): the exact quotient, rounded. */
  function Divide(x: real, divisor: real, scale: nat): (q: real)
    requires divisor != 0.0
    ensures IsHalfUp(q, x / divisor, scale)
    ensures -HalfUlp(scale) <= q - x / divisor <= HalfUlp(scale)
  {
    RoundHalfUp(x / divisor, scale)
  }

  // ---- Arithmetic with 10^scale, one step per lemma ----

  lemma UnscaleScaled(k: int, scale: nat)
    ensures Unscaled(k as real / Pow10(scale) as real, scale) == k as real
  {
  }

  lemma ErrorBound(k: int, x: real, scale: nat)
    requires -0.5 <= k as real - Unscaled(x, scale) <= 0.5
    ensures -HalfUlp(scale) <= k as real / Pow10(scale) as real - x <= HalfUlp(scale)
  {
    var p := Pow10(scale) as real;
    var d := k as real - Unscaled(x, scale);
    assert k as real / p - x == d / p;
    DivideMonotone(-0.5, d, p);
    DivideMonotone(d, 0.5, p);
    assert -HalfUlp(scale) == -0.5 / p;
  }

  lemma UnscaledMonotone(x1: real, x2: real, scale: nat)
    requires x1 <= x2
    ensures Unscaled(x1, scale) <= Unscaled(x2, scale)
  {
  }

  lemma UnscaledInjective(y1: real, y2: real, scale: nat)
    requires Unscaled(y1, scale) == Unscaled(y2, scale)
    ensures y1 == y2
  {
    var p := Pow10(scale) as real;
    assert (y1 - y2) * p == 0.0;
  }

  lemma DivideMonotone(a: real, b: real, p: real)
    requires p > 0.0 && a <= b
    ensures a / p <= b / p
  {
  }

  // ---- HALF_UP on integers ----

  /** Two integers that are both HALF_UP roundings of `t` are equal. */
  lemma HalfUpIntUnique(k1: int, k2: int, t: real)
    requires IsHalfUpInt(k1, t) && IsHalfUpInt(k2, t)
    ensures k1 == k2
  {
  }

  lemma HalfUpIntMonotone(t1: real, t2: real)
    requires t1 <= t2
    ensures HalfUpInt(t1) <= HalfUpInt(t2)
  {
  }

  // ---- HALF_UP at a scale ----

  /** HALF_UP rounding has exactly one result: the reference definition pins it down. */
  lemma HalfUpUnique(y: real, x: real, scale: nat)
    requires IsHalfUp(y, x, scale)
    ensures y == RoundHalfUp(x, scale)
  {
    var r := RoundHalfUp(x, scale);
    HalfUpIntUnique(Unscaled(y, scale).Floor, Unscaled(r, scale).Floor, Unscaled(x, scale));
    UnscaledInjective(y, r, scale);
  }

  /** Two values that are both HALF_UP roundings of `x` are equal. */
  lemma HalfUpSame(y1: real, y2: real, x: real, scale: nat)
    requires IsHalfUp(y1, x, scale) && IsHalfUp(y2, x, scale)
    ensures y1 == y2
  {
    HalfUpIntUnique(Unscaled(y1, scale).Floor, Unscaled(y2, scale).Floor, Unscaled(x, scale));
    UnscaledInjective(y1, y2, scale);
  }

  /** A value that already has `scale` digits is left as it is. */
  lemma RoundHalfUpExact(x: real, scale: nat)
    requires AtScale(x, scale)
    ensures RoundHalfUp(x, scale) == x
  {
    assert IsHalfUp(x, x, scale);
    HalfUpUnique(x, x, scale);
  }

  /** HALF_UP rounding never reverses the order of two values. */
  lemma RoundHalfUpMonotone(x1: real, x2: real, scale: nat)
    requires x1 <= x2
    ensures RoundHalfUp(x1, scale) <= RoundHalfUp(x2, scale)
  {
    var t1, t2 := Unscaled(x1, scale), Unscaled(x2, scale);
    UnscaledMonotone(x1, x2, scale);
    HalfUpIntMonotone(t1, t2);
    DivideMonotone(HalfUpInt(t1) as real, HalfUpInt(t2) as real, Pow10(scale) as real);
  }

  /** Rounding a value between 0 and 1 gives a value between 0 and 1. */
  lemma RoundHalfUpUnitInterval(x: real, scale: nat)
    requires 0.0 <= x <= 1.0
    ensures 0.0 <= RoundHalfUp(x, scale) <= 1.0
  {
    assert AtScale(0.0, scale);
    assert AtScale(1.0, scale);
    RoundHalfUpExact(0.0, scale);
    RoundHalfUpExact(1.0, scale);
    RoundHalfUpMonotone(0.0, x, scale);
    RoundHalfUpMonotone(x, 1.0, scale);
  }
}
