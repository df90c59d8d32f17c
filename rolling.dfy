/** The window operations pandas applies to a fully defined column:
    `rolling(w).max()`, `.min()`, `.mean()`, and `ewm(span, adjust=False).mean()`. */
module Rolling {
  import opened Common
  import opened Stats

  /** The w values ending at position t. */
  function Window(xs: seq<real>, w: int, t: int): (r: seq<real>)
    requires 1 <= w <= t + 1 <= |xs|
    ensures |r| == w
    ensures forall i :: 0 <= i < w ==> r[i] == xs[t - w + 1 + i]
  {
    xs[t - w + 1..t + 1]
  }

  /** Position i of the series sits at offset i - (t - w + 1) of the window ending at t. */
  lemma WindowIndex(xs: seq<real>, w: int, t: int, i: int)
    requires 1 <= w <= t + 1 <= |xs| && t - w < i <= t
    ensures Window(xs, w, t)[i - (t - w + 1)] == xs[i]
  {
  }

  /** `rolling(w).max()`: defined once w values are available. */
  function RollingMax(xs: seq<real>, w: int): (r: Series)
    requires w >= 1
    ensures |r| == |xs|
    ensures forall t :: 0 <= t < |xs| ==> (r[t].Some? <==> t >= w - 1)
  {
    seq(|xs|, t requires 0 <= t < |xs| => if t >= w - 1 then Some(Max(Window(xs, w, t))) else None)
  }

  /** `rolling(w).min()`: defined once w values are available. */
  function RollingMin(xs: seq<real>, w: int): (r: Series)
    requires w >= 1
    ensures |r| == |xs|
    ensures forall t :: 0 <= t < |xs| ==> (r[t].Some? <==> t >= w - 1)
  {
    seq(|xs|, t requires 0 <= t < |xs| => if t >= w - 1 then Some(Min(Window(xs, w, t))) else None)
  }

  /** `rolling(w).mean()`: defined once w values are available. */
  function RollingMean(xs: seq<real>, w: int): (r: Series)
    requires w >= 1
    ensures |r| == |xs|
    ensures forall t :: 0 <= t < |xs| ==> (r[t].Some? <==> t >= w - 1)
  {
    seq(|xs|, t requires 0 <= t < |xs| => if t >= w - 1 then Some(Mean(Window(xs, w, t))) else None)
  }

  /** The smoothing factor of `ewm(span=span)`. */
  function Alpha(span: int): (a: real)
    requires span >= 1
    ensures 0.0 < a <= 1.0
  {
    2.0 / (span as real + 1.0)
  }

  /** `ewm(adjust=False).mean()` at position t: seeded with the first value,
      then each value pulls the average a fraction alpha of the way towards it. */
  function EmaAt(xs: seq<real>, alpha: real, t: nat): (e: real)
    requires t < |xs|
    ensures alpha == 1.0 ==> e == xs[t]
  {
    if t == 0 then xs[0] else alpha * xs[t] + (1.0 - alpha) * EmaAt(xs, alpha, t - 1)
  }

  function Ema(xs: seq<real>, alpha: real): (r: seq<real>)
    ensures |r| == |xs|
    ensures |xs| > 0 ==> r[0] == xs[0]
    ensures forall t :: 0 < t < |xs| ==> r[t] == alpha * xs[t] + (1.0 - alpha) * r[t - 1]
  {
    seq(|xs|, t requires 0 <= t < |xs| => EmaAt(xs, alpha, t))
  }

  /** The exponential average never leaves the range of the values it has seen. */
  lemma {:induction false} EmaBetween(xs: seq<real>, alpha: real, t: nat, lo: real, hi: real)
    requires 0.0 < alpha <= 1.0
    requires t < |xs|
    requires forall i :: 0 <= i <= t ==> lo <= xs[i] <= hi
    ensures lo <= EmaAt(xs, alpha, t) <= hi
  {
    if t > 0 {
      EmaBetween(xs, alpha, t - 1, lo, hi);
      var e := EmaAt(xs, alpha, t - 1);
      ConvexCombination(alpha, xs[t], e, lo, hi);
    }
  }

  lemma ConvexCombination(a: real, x: real, y: real, lo: real, hi: real)
    requires 0.0 <= a <= 1.0
    requires lo <= x <= hi && lo <= y <= hi
    ensures lo <= a * x + (1.0 - a) * y <= hi
  {
    assert a * (x - lo) >= 0.0;
    assert (1.0 - a) * (y - lo) >= 0.0;
    assert a * (hi - x) >= 0.0;
    assert (1.0 - a) * (hi - y) >= 0.0;
  }

  /** The exponential average at t lies between the least and the greatest value up to t. */
  lemma EmaWithinExtremes(xs: seq<real>, alpha: real, t: nat)
    requires 0.0 < alpha <= 1.0
    requires t < |xs|
    ensures Min(xs[..t + 1]) <= EmaAt(xs, alpha, t) <= Max(xs[..t + 1])
  {
    var p := xs[..t + 1];
    forall i | 0 <= i <= t ensures Min(p) <= xs[i] <= Max(p) {
      assert xs[i] == p[i];
    }
    EmaBetween(xs, alpha, t, Min(p), Max(p));
  }

  /** A span of 1 gives a smoothing factor of 1: the average is the series itself. */
  lemma EmaOfSpanOne(xs: seq<real>)
    ensures Alpha(1) == 1.0
    ensures Ema(xs, Alpha(1)) == xs
  {
  }

  /** A constant input gives a constant exponential average. */
  lemma EmaOfConstant(xs: seq<real>, alpha: real, c: real)
    requires 0.0 < alpha <= 1.0
    requires forall i :: 0 <= i < |xs| ==> xs[i] == c
    ensures forall t :: 0 <= t < |xs| ==> Ema(xs, alpha)[t] == c
  {
    forall t | 0 <= t < |xs| ensures Ema(xs, alpha)[t] == c {
      EmaBetween(xs, alpha, t, c, c);
    }
  }
}
