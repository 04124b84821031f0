/** Decimal rounding over exact arithmetic. */
module Rounding {
  function Abs(x: real): real {
    if x < 0.0 then -x else x
  }

  /** Rounding toward zero. */
  function Truncate(x: real): int {
    if x >= 0.0 then x.Floor else -((-x).Floor)
  }

  function HalfUp(y: real): int {
    (y + 0.5).Floor
  }

  /** Decimal quantization with ROUND_HALF_UP: to the nearest multiple of 1/scale, ties away from zero. */
  function RoundHalfUp(x: real, scale: real): real
    requires 0.0 < scale
  {
    if x >= 0.0 then HalfUp(x * scale) as real / scale
    else -(HalfUp(-x * scale) as real / scale)
  }

  lemma HalfUpMonotone(x: real, y: real)
    requires x <= y
    ensures HalfUp(x) <= HalfUp(y)
    ensures 0.0 <= x ==> 0 <= HalfUp(x)
  {
  }

  lemma DivideMonotone(a: real, b: real, d: real)
    requires a <= b && 0.0 < d
    ensures a / d <= b / d
  {
  }

  lemma TimesMonotone(a: real, b: real, d: real)
    requires a <= b && 0.0 <= d
    ensures a * d <= b * d
  {
  }

  lemma HalfUpZero()
    ensures HalfUp(0.0) == 0
  {
    assert (0.5).Floor == 0;
  }

  lemma RoundSign(x: real, scale: real)
    requires 0.0 < scale
    ensures 0.0 <= x ==> 0.0 <= RoundHalfUp(x, scale)
    ensures x <= 0.0 ==> RoundHalfUp(x, scale) <= 0.0
    ensures RoundHalfUp(-x, scale) == -RoundHalfUp(x, scale)
  {
    hide HalfUp;
    if 0.0 <= x {
      TimesMonotone(0.0, x, scale);
      HalfUpMonotone(0.0, x * scale);
      DivideMonotone(0.0, HalfUp(x * scale) as real, scale);
    } else {
      TimesMonotone(0.0, -x, scale);
      HalfUpMonotone(0.0, -x * scale);
      DivideMonotone(0.0, HalfUp(-x * scale) as real, scale);
    }
    assert - -x == x;
    if x == 0.0 {
      HalfUpZero();
      assert x * scale == 0.0 && -x * scale == 0.0;
    }
  }

  lemma RoundMonotonePositive(x: real, y: real, scale: real)
    requires 0.0 < scale && 0.0 <= x <= y
    ensures RoundHalfUp(x, scale) <= RoundHalfUp(y, scale)
  {
    hide HalfUp;
    TimesMonotone(x, y, scale);
    HalfUpMonotone(x * scale, y * scale);
    DivideMonotone(HalfUp(x * scale) as real, HalfUp(y * scale) as real, scale);
  }

  /** Half-up rounding is monotone. */
  lemma RoundMonotone(x: real, y: real, scale: real)
    requires 0.0 < scale && x <= y
    ensures RoundHalfUp(x, scale) <= RoundHalfUp(y, scale)
  {
    hide RoundHalfUp;
    RoundSign(x, scale);
    RoundSign(y, scale);
    if 0.0 <= x {
      RoundMonotonePositive(x, y, scale);
    } else if y <= 0.0 {
      RoundMonotonePositive(-y, -x, scale);
    }
  }

  lemma Rescale(n: real, scale: real, y: real)
    requires 0.0 < scale
    ensures (n / scale - y) * scale == n - y * scale
    ensures (-(n / scale) - -y) * scale == -n - -y * scale
  {
    var q := n / scale;
    assert q * scale == n;
  }

  /** Half-up rounding is off by at most half a unit. */
  lemma RoundNear(x: real, scale: real)
    requires 0.0 < scale
    ensures -0.5 <= (RoundHalfUp(x, scale) - x) * scale <= 0.5
  {
    if x >= 0.0 {
      Rescale(HalfUp(x * scale) as real, scale, x);
    } else {
      Rescale(HalfUp(-x * scale) as real, scale, -x);
    }
  }

  lemma RoundZero(scale: real)
    requires 0.0 < scale
    ensures RoundHalfUp(0.0, scale) == 0.0
  {
    RoundSign(0.0, scale);
  }
}
