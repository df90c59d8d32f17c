/** Python's `round(x, 2)`, over exact reals: the nearest multiple of 1/100,
    a tie going to the even hundredth. */
module Rounding {
  import opened Common

  /** The number of hundredths `round(x, 2)` keeps. */
  function Hundredths(x: real): (n: int)
    ensures -1.0 / 2.0 <= n as real - x * 100.0 <= 1.0 / 2.0
  {
    var y := x * 100.0;
    var f := y.Floor;
    var frac := y - f as real;
    if frac < 1.0 / 2.0 then f
    else if frac > 1.0 / 2.0 then f + 1
    else if f % 2 == 0 then f
    else f + 1
  }

  function Round2(x: real): (r: real)
    ensures -1.0 / 200.0 <= r - x <= 1.0 / 200.0
    ensures (r * 100.0).Floor as real == r * 100.0
  {
    Hundredths(x) as real / 100.0
  }

  /** `round` applied to a float that may be NaN (NaN stays NaN). */
  function Round2Opt(v: Option<real>): Option<real> {
    if v.Some? then Some(Round2(v.value)) else None
  }

  /** A value that already has at most two decimals is left unchanged. */
  lemma Round2Exact(k: int)
    ensures Round2(k as real / 100.0) == k as real / 100.0
  {
    var x := k as real / 100.0;
    assert x * 100.0 == k as real;
    assert (x * 100.0).Floor == k;
  }

  lemma {:induction false} HundredthsMonotone(x: real, y: real)
    requires x <= y
    ensures Hundredths(x) <= Hundredths(y)
  {
    var fx, fy := (x * 100.0).Floor, (y * 100.0).Floor;
    assert x * 100.0 <= y * 100.0;
    assert fx <= fy;
    if fx < fy {
      assert Hundredths(x) <= fx + 1 <= fy <= Hundredths(y);
    } else {
      assert x * 100.0 - fx as real <= y * 100.0 - fy as real;
    }
  }

  /** Rounding never reverses the order of two values. */
  lemma Round2Monotone(x: real, y: real)
    requires x <= y
    ensures Round2(x) <= Round2(y)
  {
    HundredthsMonotone(x, y);
  }

  /** Rounding keeps a value inside any interval whose ends have at most two decimals. */
  lemma Round2Within(x: real, lo: int, hi: int)
    requires lo as real / 100.0 <= x <= hi as real / 100.0
    ensures lo as real / 100.0 <= Round2(x) <= hi as real / 100.0
  {
    Round2Monotone(lo as real / 100.0, x);
    Round2Monotone(x, hi as real / 100.0);
    Round2Exact(lo);
    Round2Exact(hi);
  }
}
