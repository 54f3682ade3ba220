/** Python's `round(x, 1)` on the occupancy ratio, taken over exact reals:
    the nearest multiple of 0.1, ties to the even multiple. */
module Rounding {

  /** The number of tenths `round(x, 1)` selects. */
  function RoundTenths(x: real): (k: int)
    ensures -0.5 <= k as real - x * 10.0 <= 0.5
  {
    var scaled := x * 10.0;
    var n := scaled.Floor;
    var frac := scaled - n as real;
    if frac < 0.5 then n
    else if frac > 0.5 then n + 1
    else if n % 2 == 0 then n
    else n + 1
  }

  /** `round(x, 1)`: a multiple of 0.1 within 0.05 of `x`. */
  function Round1(x: real): (r: real)
    ensures r * 10.0 == (r * 10.0).Floor as real
    ensures -0.05 <= r - x <= 0.05
  {
    RoundTenths(x) as real / 10.0
  }

  /** Rounding a value that already has one decimal leaves it unchanged. */
  lemma {:induction false} Round1OfTenths(k: int)
    ensures Round1(k as real / 10.0) == k as real / 10.0
  {
  }

  /** Rounding keeps a value inside any interval whose ends have one decimal;
      in particular a percentage in [0, 100] stays in [0, 100]. */
  lemma {:induction false} Round1Within(x: real, lo: int, hi: int)
    requires lo as real / 10.0 <= x <= hi as real / 10.0
    ensures lo as real / 10.0 <= Round1(x) <= hi as real / 10.0
  {
    var k := RoundTenths(x);
    assert lo as real - 0.5 <= k as real <= hi as real + 0.5;
    assert lo <= k <= hi;
  }
}
