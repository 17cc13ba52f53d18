/**
 * Rounding of exact values to integers and to decimal places, as the
 * kernel's `f64::round`, `f64::ceil` and `rust_decimal`'s rounding
 * strategies do it.
 */
module Rounding {
  /** `f64::round`: the nearest integer, halves away from zero. */
  function RoundHalfAway(x: real): (r: int)
    ensures x - 0.5 <= r as real <= x + 0.5
    ensures r as real - x == 0.5 ==> x > 0.0
    ensures x - r as real == 0.5 ==> x < 0.0
  {
    if x >= 0.0 then (x + 0.5).Floor else -((-x + 0.5).Floor)
  }

  function Pow10(d: nat): (r: real)
    ensures r >= 1.0
  {
    if d == 0 then 1.0 else 10.0 * Pow10(d - 1)
  }

  /** `round(v, d)`: v rounded to d decimal places. */
  function RoundTo(v: real, d: nat): real
  {
    RoundHalfAway(v * Pow10(d)) as real / Pow10(d)
  }

  /** Rounding to two places moves a value by at most half a hundredth. */
  lemma RoundTo2Close(v: real)
    ensures -0.005 <= RoundTo(v, 2) - v <= 0.005
  {
    assert Pow10(2) == 100.0;
    var r := RoundHalfAway(v * 100.0) as real;
    assert v * 100.0 - 0.5 <= r <= v * 100.0 + 0.5;
  }

  /** `f64::ceil`: the least integer not below x. */
  function Ceil(x: real): (r: int)
    ensures x <= r as real < x + 1.0
  {
    -((-x).Floor)
  }

  /** Rounding toward zero: the integer part. */
  function Trunc(x: real): (r: int)
    ensures x >= 0.0 ==> r as real <= x < r as real + 1.0
    ensures x < 0.0 ==> r as real - 1.0 < x <= r as real
  {
    if x >= 0.0 then x.Floor else -((-x).Floor)
  }
}
