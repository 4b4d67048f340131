/** Rounding to two decimal places, as `round(x, 2)` does, over exact reals:
    the result is the nearest hundredth, and an exact tie goes to the even
    hundredth (banker's rounding). */
module Rounding {

  /** r is a whole number of hundredths. */
  predicate IsHundredths(r: real) {
    (r * 100.0).Floor as real == r * 100.0
  }

  /** The number of hundredths that x rounds to. */
  function RoundedHundredths(x: real): (n: int)
    ensures x * 100.0 - 0.5 <= n as real <= x * 100.0 + 0.5
  {
    var y := x * 100.0;
    var f := y.Floor;
    var d := y - f as real;
    if d < 0.5 then f
    else if d > 0.5 then f + 1
    else if f % 2 == 0 then f
    else f + 1
  }

  function Round2(x: real): (r: real)
    ensures IsHundredths(r)
    ensures x - 0.005 <= r <= x + 0.005
  {
    var n := RoundedHundredths(x);
    var r := n as real / 100.0;
    assert r * 100.0 == n as real;
    assert (r * 100.0).Floor == n;
    assert x * 100.0 - 0.5 <= r * 100.0 <= x * 100.0 + 0.5;
    r
  }

  /** A value that already has at most two decimals is left as it is. */
  lemma Round2OfHundredths(n: int)
    ensures Round2(n as real / 100.0) == n as real / 100.0
  {
    var y := (n as real / 100.0) * 100.0;
    assert y == n as real;
    assert y.Floor == n;
  }

  lemma Round2Monotonic(x: real, y: real)
    requires x <= y
    ensures Round2(x) <= Round2(y)
  {
    var fx, fy := (x * 100.0).Floor, (y * 100.0).Floor;
    assert fx <= fy;
    if fx == fy {
      assert RoundedHundredths(x) <= RoundedHundredths(y);
    } else {
      assert RoundedHundredths(x) <= fx + 1 <= fy <= RoundedHundredths(y);
    }
  }

  /** Non-negative values never round to a negative number. */
  lemma Round2NonNegative(x: real)
    requires x >= 0.0
    ensures Round2(x) >= 0.0
  {
    Round2Monotonic(0.0, x);
    Round2OfHundredths(0);
  }

  /** A value exactly halfway between hundredths n and n + 1 goes to the
      even one of the two. */
  lemma Round2TieToEven(n: int)
    ensures Round2((2 * n + 1) as real / 200.0) == (if n % 2 == 0 then n else n + 1) as real / 100.0
  {
    assert ((2 * n + 1) as real / 200.0 * 100.0).Floor == n;
  }

  /** Ties go to the even hundredth, in both directions. */
  lemma Round2TiesToEven()
    ensures Round2(0.125) == 0.12
    ensures Round2(0.375) == 0.38
    ensures Round2(-0.125) == -0.12
  {
  }
}
