/** Keltner channel: an exponential average of the close as the middle band, and
    bands a multiple of the average bar range above and below it. */
module KeltnerIndicator {
  import opened Common
  import opened Stats
  import opened Rolling

  datatype KeltnerColumns = KeltnerColumns(middle: Series, upper: Series, lower: Series)

  /** High minus low of each bar: the range whose rolling mean stands in for the true range. */
  function Ranges(bars: seq<Bar>): (r: seq<real>)
    ensures |r| == |bars|
    ensures forall t :: 0 <= t < |bars| ==>
              bars[t].low + r[t] == bars[t].high && (bars[t].low <= bars[t].high ==> r[t] >= 0.0)
  {
    seq(|bars|, t requires 0 <= t < |bars| => bars[t].high - bars[t].low)
  }

  /** The `atr` series: mean bar range over the last `atrPeriod` bars. */
  function Atr(bars: seq<Bar>, atrPeriod: int): (r: Series)
    requires atrPeriod >= 1
    ensures |r| == |bars|
    ensures forall t :: 0 <= t < |bars| ==> (r[t].Some? <==> t >= atrPeriod - 1)
  {
    RollingMean(Ranges(bars), atrPeriod)
  }

  /** From the first full window on, the average range is the mean of the last
      `atrPeriod` bar ranges. */
  lemma AtrAt(bars: seq<Bar>, atrPeriod: int, t: int)
    requires atrPeriod >= 1 && atrPeriod - 1 <= t < |bars|
    ensures Atr(bars, atrPeriod)[t] == Some(Mean(Window(Ranges(bars), atrPeriod, t)))
    ensures forall i :: 0 <= i < atrPeriod ==>
              Window(Ranges(bars), atrPeriod, t)[i] == bars[t - atrPeriod + 1 + i].high - bars[t - atrPeriod + 1 + i].low
  {
  }

  /** `keltner(window_size, atr_period, multiplier)`. The middle band is an exponential
      average (span `windowSize`), defined at every bar. */
  function Keltner(bars: seq<Bar>, windowSize: int, atrPeriod: int, multiplier: real): (r: KeltnerColumns)
    requires windowSize >= 1 && atrPeriod >= 1
    ensures |r.middle| == |bars| && |r.upper| == |bars| && |r.lower| == |bars|
    ensures forall t :: 0 <= t < |bars| ==>
              r.middle[t].Some? && (r.upper[t].Some? <==> t >= atrPeriod - 1) && (r.lower[t].Some? <==> t >= atrPeriod - 1)
  {
    var middle := Ema(Closes(bars), Alpha(windowSize));
    var atr := Atr(bars, atrPeriod);
    KeltnerColumns(
      Defined(middle),
      seq(|bars|, t requires 0 <= t < |bars| => Add(Some(middle[t]), Scale(atr[t], multiplier))),
      seq(|bars|, t requires 0 <= t < |bars| => Sub(Some(middle[t]), Scale(atr[t], multiplier))))
  }

  /** The middle band is the exponential average of the close at every bar. */
  lemma KeltnerMiddleAt(bars: seq<Bar>, windowSize: int, atrPeriod: int, multiplier: real, t: int)
    requires windowSize >= 1 && atrPeriod >= 1 && 0 <= t < |bars|
    ensures Keltner(bars, windowSize, atrPeriod, multiplier).middle[t] == Some(EmaAt(Closes(bars), Alpha(windowSize), t))
  {
  }

  /** The outer bands are defined exactly where the average range is, and they sit
      symmetrically at multiplier times that range from the middle. */
  lemma KeltnerBandsAt(bars: seq<Bar>, windowSize: int, atrPeriod: int, multiplier: real, t: int)
    requires windowSize >= 1 && atrPeriod >= 1 && 0 <= t < |bars|
    ensures Keltner(bars, windowSize, atrPeriod, multiplier).upper[t].Some? <==> t >= atrPeriod - 1
    ensures Keltner(bars, windowSize, atrPeriod, multiplier).lower[t].Some? <==> t >= atrPeriod - 1
    ensures t >= atrPeriod - 1 ==>
              var r := Keltner(bars, windowSize, atrPeriod, multiplier);
              r.upper[t].value - r.middle[t].value == multiplier * Atr(bars, atrPeriod)[t].value &&
              r.middle[t].value - r.lower[t].value == multiplier * Atr(bars, atrPeriod)[t].value
  {
  }

  /** Bars whose high is at least their low give a non-negative average range, hence
      lower <= middle <= upper for a non-negative multiplier. */
  lemma KeltnerOrdered(bars: seq<Bar>, windowSize: int, atrPeriod: int, multiplier: real, t: int)
    requires windowSize >= 1 && atrPeriod >= 1 && atrPeriod - 1 <= t < |bars|
    requires multiplier >= 0.0
    requires forall i :: 0 <= i < |bars| ==> bars[i].low <= bars[i].high
    ensures Atr(bars, atrPeriod)[t].value >= 0.0
    ensures var r := Keltner(bars, windowSize, atrPeriod, multiplier);
            r.lower[t].value <= r.middle[t].value <= r.upper[t].value
  {
    AtrNonNegative(bars, atrPeriod, t);
    var a := Atr(bars, atrPeriod)[t].value;
    assert multiplier * a >= 0.0;
    KeltnerBandsAt(bars, windowSize, atrPeriod, multiplier, t);
  }

  lemma AtrNonNegative(bars: seq<Bar>, atrPeriod: int, t: int)
    requires atrPeriod >= 1 && atrPeriod - 1 <= t < |bars|
    requires forall i :: 0 <= i < |bars| ==> bars[i].low <= bars[i].high
    ensures Atr(bars, atrPeriod)[t].Some? && Atr(bars, atrPeriod)[t].value >= 0.0
  {
    var w := Window(Ranges(bars), atrPeriod, t);
    MeanBetween(w, 0.0, Max(w));
  }

  /** Bars with high equal to low collapse the channel onto its middle band. */
  lemma KeltnerCollapses(bars: seq<Bar>, windowSize: int, atrPeriod: int, multiplier: real, t: int)
    requires windowSize >= 1 && atrPeriod >= 1 && atrPeriod - 1 <= t < |bars|
    requires forall i :: 0 <= i < |bars| ==> bars[i].low == bars[i].high
    ensures var r := Keltner(bars, windowSize, atrPeriod, multiplier);
            r.lower[t] == r.middle[t] == r.upper[t]
  {
    var w := Window(Ranges(bars), atrPeriod, t);
    MeanOfConstant(w, 0.0);
  }
}
