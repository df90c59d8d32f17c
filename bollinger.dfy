/** Bollinger bands: the rolling mean of the close, with bands a multiple of the
    rolling sample standard deviation above and below it. The square root is a
    parameter: exact reals have no computable square root. */
module BollingerIndicator {
  import opened Common
  import opened Stats
  import opened Rolling

  datatype BollingerColumns = BollingerColumns(middle: Series, upper: Series, lower: Series)

  /** `rolling(window).std()`: the square root of the sample variance, undefined before a
      full window and everywhere when the window holds a single value (n - 1 = 0). */
  function RollingStd(xs: seq<real>, window: int, sqrt: real -> real): (r: Series)
    requires window >= 1
    ensures |r| == |xs|
    ensures forall t :: 0 <= t < |xs| ==> (r[t].Some? <==> window >= 2 && t >= window - 1)
  {
    seq(|xs|, t requires 0 <= t < |xs| =>
      if window >= 2 && t >= window - 1 then Some(sqrt(SampleVariance(Window(xs, window, t)))) else None)
  }

  /** `bollinger(window, std_multiplier)`. */
  function Bollinger(bars: seq<Bar>, window: int, stdMultiplier: real, sqrt: real -> real): (r: BollingerColumns)
    requires window >= 1
    ensures |r.middle| == |bars| && |r.upper| == |bars| && |r.lower| == |bars|
    ensures forall t :: 0 <= t < |bars| ==>
              (r.middle[t].Some? <==> t >= window - 1) &&
              (r.upper[t].Some? <==> window >= 2 && t >= window - 1) &&
              (r.lower[t].Some? <==> window >= 2 && t >= window - 1)
  {
    var closes := Closes(bars);
    var middle := RollingMean(closes, window);
    var std := RollingStd(closes, window, sqrt);
    BollingerColumns(
      middle,
      seq(|bars|, t requires 0 <= t < |bars| => Add(middle[t], Scale(std[t], stdMultiplier))),
      seq(|bars|, t requires 0 <= t < |bars| => Sub(middle[t], Scale(std[t], stdMultiplier))))
  }

  /** The middle band is the mean of the last `window` closes; the outer bands are defined
      where the standard deviation is, symmetric about the middle at multiplier times it. */
  lemma BollingerBandsAt(bars: seq<Bar>, window: int, stdMultiplier: real, sqrt: real -> real, t: int)
    requires window >= 1 && 0 <= t < |bars|
    ensures Bollinger(bars, window, stdMultiplier, sqrt).middle[t].Some? <==> t >= window - 1
    ensures t >= window - 1 ==>
              Bollinger(bars, window, stdMultiplier, sqrt).middle[t].value == Mean(Window(Closes(bars), window, t))
    ensures Bollinger(bars, window, stdMultiplier, sqrt).upper[t].Some? <==> RollingStd(Closes(bars), window, sqrt)[t].Some?
    ensures Bollinger(bars, window, stdMultiplier, sqrt).lower[t].Some? <==> RollingStd(Closes(bars), window, sqrt)[t].Some?
    ensures RollingStd(Closes(bars), window, sqrt)[t].Some? ==>
              var r, sd := Bollinger(bars, window, stdMultiplier, sqrt), RollingStd(Closes(bars), window, sqrt)[t].value;
              r.upper[t].value - r.middle[t].value == stdMultiplier * sd &&
              r.middle[t].value - r.lower[t].value == stdMultiplier * sd
  {
    var closes := Closes(bars);
    var middle, std := RollingMean(closes, window), RollingStd(closes, window, sqrt);
    var r := Bollinger(bars, window, stdMultiplier, sqrt);
    assert r.middle[t] == middle[t];
    assert r.upper[t] == Add(middle[t], Scale(std[t], stdMultiplier));
    assert r.lower[t] == Sub(middle[t], Scale(std[t], stdMultiplier));
  }

  /** With a square root that is never negative, the bands are ordered for a non-negative
      multiplier. */
  lemma BollingerOrdered(bars: seq<Bar>, window: int, stdMultiplier: real, sqrt: real -> real, t: int)
    requires window >= 2 && window - 1 <= t < |bars|
    requires stdMultiplier >= 0.0
    requires forall x :: 0.0 <= x ==> 0.0 <= sqrt(x)
    ensures Bollinger(bars, window, stdMultiplier, sqrt).lower[t].value
         <= Bollinger(bars, window, stdMultiplier, sqrt).middle[t].value
         <= Bollinger(bars, window, stdMultiplier, sqrt).upper[t].value
  {
    var v := SampleVariance(Window(Closes(bars), window, t));
    SampleVarianceNonNegative(Window(Closes(bars), window, t));
    var sd := sqrt(v);
    assert sd >= 0.0;
    assert RollingStd(Closes(bars), window, sqrt)[t] == Some(sd);
    assert stdMultiplier * sd >= 0.0;
    BollingerBandsAt(bars, window, stdMultiplier, sqrt, t);
  }

  /** A window of equal closes has zero deviation, and the three bands coincide. */
  lemma BollingerCollapses(bars: seq<Bar>, window: int, stdMultiplier: real, sqrt: real -> real, t: int, c: real)
    requires window >= 2 && window - 1 <= t < |bars|
    requires sqrt(0.0) == 0.0
    requires forall i :: t - window + 1 <= i <= t ==> bars[i].close == c
    ensures RollingStd(Closes(bars), window, sqrt)[t] == Some(0.0)
    ensures var r := Bollinger(bars, window, stdMultiplier, sqrt);
            r.lower[t] == r.middle[t] == r.upper[t] == Some(c)
  {
    var w := Window(Closes(bars), window, t);
    SampleVarianceOfConstant(w, c);
    MeanOfConstant(w, c);
  }
}
