/**
 * The small pieces of numeric vocabulary the scorer and the fetcher share:
 * `max`/`min` clamping to the score range and Python's `round(x, n)`.
 */
module Decimal {

  function Min(a: real, b: real): real { if a <= b then a else b }

  function Max(a: real, b: real): real { if a <= b then b else a }

  /** `max(0, min(100, x))`: the clamp every sub-score passes through. */
  function Clamp(x: real): (r: real)
    ensures 0.0 <= r <= 100.0
    ensures 0.0 <= x <= 100.0 ==> r == x
    ensures x <= 0.0 ==> r == 0.0
    ensures 100.0 <= x ==> r == 100.0
  {
    Max(0.0, Min(100.0, x))
  }

  /**
   * `round(x, n)` where `scale` is 10^n: the nearest multiple of 1/scale,
   * ties rounded upwards.
   */
  function Round(x: real, scale: nat): (r: real)
    requires 0 < scale
    ensures x - 1.0 / (2 * scale) as real < r <= x + 1.0 / (2 * scale) as real
  {
    var s := scale as real;
    var f := (x * s + 0.5).Floor;
    assert f as real <= x * s + 0.5 < f as real + 1.0;
    assert f as real / s <= x + 0.5 / s by {
      assert (x * s + 0.5) / s == x + 0.5 / s;
    }
    assert x - 0.5 / s < f as real / s by {
      assert (x * s - 0.5) / s == x - 0.5 / s;
    }
    assert 0.5 / s == 1.0 / (2 * scale) as real;
    f as real / s
  }

  /** `round(x, 1)`, the one-decimal rounding of sub-scores, category totals and the final score. */
  function Round1(x: real): (r: real)
    ensures x - 0.05 < r <= x + 0.05
    ensures 0.0 <= x <= 100.0 ==> 0.0 <= r <= 100.0
  {
    var r := Round(x, 10);
    assert 0.0 <= x ==> 0.0 <= r by {
      assert (x * 10.0 + 0.5).Floor as real > x * 10.0 - 0.5;
    }
    r
  }

  /** Rounding to one decimal never reverses the order of two scores. */
  lemma Round1Monotone(x: real, y: real)
    requires x <= y
    ensures Round1(x) <= Round1(y)
  {
    assert (x * 10.0 + 0.5).Floor <= (y * 10.0 + 0.5).Floor;
  }

  /** A value that already has one decimal is left as it is. */
  lemma Round1OfTenths(k: int)
    ensures Round1(k as real / 10.0) == k as real / 10.0
  {
    assert (k as real / 10.0 * 10.0 + 0.5).Floor == k;
  }
}
