/** The relative strength index: close-to-close changes split into gains and
    losses, their 14-bar averages, and 100 - 100 / (1 + gain / loss). */
module RsiIndicator {
  import opened Common
  import opened Stats
  import opened Rolling

  /** The averaging window; the function's own `window_size` argument is not used. */
  const RSI_WINDOW := 14

  /** `close.diff()`: undefined at the first bar. */
  function Delta(bars: seq<Bar>): (r: Series)
    ensures |r| == |bars|
    ensures |bars| > 0 ==> r[0] == None
    ensures forall t {:trigger r[t]} :: 1 <= t < |bars| ==> r[t].Some? && bars[t - 1].close + r[t].value == bars[t].close
  {
    seq(|bars|, t requires 0 <= t < |bars| => if t == 0 then None else Some(bars[t].close - bars[t - 1].close))
  }

  /** `delta.where(delta > 0, 0)`: an undefined delta fails the test and becomes 0. */
  function Gains(bars: seq<Bar>): (r: seq<real>)
    ensures |r| == |bars|
    ensures forall t :: 0 <= t < |bars| ==> r[t] >= 0.0 && (r[t] > 0.0 ==> Delta(bars)[t] == Some(r[t]))
  {
    var d := Delta(bars);
    seq(|bars|, t requires 0 <= t < |bars| => if Gt(d[t], Some(0.0)) then d[t].value else 0.0)
  }

  /** `-delta.where(delta < 0, 0)`. */
  function Losses(bars: seq<Bar>): (r: seq<real>)
    ensures |r| == |bars|
    ensures forall t :: 0 <= t < |bars| ==> r[t] >= 0.0 && (r[t] > 0.0 ==> Delta(bars)[t].Some? && Delta(bars)[t].value == -r[t])
  {
    var d := Delta(bars);
    seq(|bars|, t requires 0 <= t < |bars| => if Lt(d[t], Some(0.0)) then -d[t].value else 0.0)
  }

  /** Gains and losses are never negative, at most one of them is positive at a bar,
      both are 0 at the first bar, and from the second bar on their difference is the
      change of the close. */
  lemma GainLossSplit(bars: seq<Bar>, t: int)
    requires 0 <= t < |bars|
    ensures Gains(bars)[t] >= 0.0 && Losses(bars)[t] >= 0.0
    ensures Gains(bars)[t] == 0.0 || Losses(bars)[t] == 0.0
    ensures t == 0 ==> Gains(bars)[t] == 0.0 && Losses(bars)[t] == 0.0
    ensures t >= 1 ==> Gains(bars)[t] - Losses(bars)[t] == bars[t].close - bars[t - 1].close
  {
  }

  /** `100 - 100 / (1 + avg_gain / avg_loss)` under float division: a zero average loss
      gives an infinite ratio and so 100, unless the average gain is 0 as well (0/0, NaN). */
  function RsiValue(avgGain: real, avgLoss: real): (r: Option<real>)
    requires avgGain >= 0.0 && avgLoss >= 0.0
    ensures r.Some? <==> avgGain > 0.0 || avgLoss > 0.0
    ensures avgLoss > 0.0 ==> r == Some(100.0 * avgGain / (avgGain + avgLoss))
    ensures avgLoss > 0.0 ==> 0.0 <= r.value < 100.0
    ensures avgLoss == 0.0 && avgGain > 0.0 ==> r == Some(100.0)
  {
    if avgLoss > 0.0 then
      var rs := avgGain / avgLoss;
      assert 100.0 / (1.0 + rs) == 100.0 * avgLoss / (avgGain + avgLoss) by {
        assert (1.0 + rs) * avgLoss == avgGain + avgLoss;
      }
      ShareOfTotal(avgGain, avgLoss);
      assert 100.0 * avgGain / (avgGain + avgLoss) < 100.0;
      Some(100.0 - 100.0 / (1.0 + rs))
    else if avgGain > 0.0 then Some(100.0)
    else None
  }

  lemma ShareOfTotal(g: real, l: real)
    requires g >= 0.0 && l > 0.0
    ensures 100.0 - 100.0 * l / (g + l) == 100.0 * g / (g + l)
  {
    var total := g + l;
    var x, y := 100.0 * l / total, 100.0 * g / total;
    assert x * total == 100.0 * l;
    assert y * total == 100.0 * g;
    calc {
      (x + y) * total;
      x * total + y * total;
      100.0 * l + 100.0 * g;
      100.0 * total;
    }
    assert x + y == 100.0;
  }

  /** The "rsi" column. */
  function Rsi(bars: seq<Bar>, windowSize: int): (r: Series)
    ensures |r| == |bars|
    ensures forall t :: 0 <= t < |bars| && r[t].Some? ==> t >= RSI_WINDOW - 1
  {
    var gains, losses := Gains(bars), Losses(bars);
    var avgGain, avgLoss := RollingMean(gains, RSI_WINDOW), RollingMean(losses, RSI_WINDOW);
    seq(|bars|, t requires 0 <= t < |bars| =>
      if t >= RSI_WINDOW - 1 then
        NonNegativeMean(gains, t);
        NonNegativeMean(losses, t);
        RsiValue(avgGain[t].value, avgLoss[t].value)
      else None)
  }

  lemma NonNegativeMean(xs: seq<real>, t: int)
    requires RSI_WINDOW - 1 <= t < |xs|
    requires forall i :: 0 <= i < |xs| ==> xs[i] >= 0.0
    ensures RollingMean(xs, RSI_WINDOW)[t].Some?
    ensures RollingMean(xs, RSI_WINDOW)[t].value >= 0.0
  {
    var w := Window(xs, RSI_WINDOW, t);
    MeanBetween(w, 0.0, Max(w));
  }

  /** From index 13 on, the RSI is `RsiValue` of the 14-bar mean gain and mean loss. */
  lemma RsiAt(bars: seq<Bar>, windowSize: int, t: int)
    requires RSI_WINDOW - 1 <= t < |bars|
    ensures Mean(Window(Gains(bars), RSI_WINDOW, t)) >= 0.0 && Mean(Window(Losses(bars), RSI_WINDOW, t)) >= 0.0
    ensures Rsi(bars, windowSize)[t]
         == RsiValue(Mean(Window(Gains(bars), RSI_WINDOW, t)), Mean(Window(Losses(bars), RSI_WINDOW, t)))
  {
    NonNegativeMean(Gains(bars), t);
    NonNegativeMean(Losses(bars), t);
  }

  /** From index 13 on, the RSI is defined exactly when the close moved at least once in
      the 14 changes ending at t (the first bar has no change). */
  lemma RsiDefined(bars: seq<Bar>, windowSize: int, t: int)
    requires RSI_WINDOW - 1 <= t < |bars|
    ensures Rsi(bars, windowSize)[t].Some? <==>
              exists i :: t - RSI_WINDOW < i <= t && 1 <= i && bars[i].close != bars[i - 1].close
  {
    if exists i :: t - RSI_WINDOW < i <= t && 1 <= i && bars[i].close != bars[i - 1].close {
      var i :| t - RSI_WINDOW < i <= t && 1 <= i && bars[i].close != bars[i - 1].close;
      RsiDefinedAfterMove(bars, windowSize, t, i);
    } else {
      RsiUndefinedWithoutMove(bars, windowSize, t);
    }
  }

  lemma RsiDefinedAfterMove(bars: seq<Bar>, windowSize: int, t: int, i: int)
    requires RSI_WINDOW - 1 <= t < |bars|
    requires t - RSI_WINDOW < i <= t && 1 <= i && bars[i].close != bars[i - 1].close
    ensures Rsi(bars, windowSize)[t].Some?
  {
    MoveMakesMeanPositive(bars, t, i);
    RsiAt(bars, windowSize, t);
  }

  /** A move of the close inside the window makes the mean gain or the mean loss positive. */
  lemma MoveMakesMeanPositive(bars: seq<Bar>, t: int, i: int)
    requires RSI_WINDOW - 1 <= t < |bars|
    requires t - RSI_WINDOW < i <= t && 1 <= i && bars[i].close != bars[i - 1].close
    ensures Mean(Window(Gains(bars), RSI_WINDOW, t)) > 0.0 || Mean(Window(Losses(bars), RSI_WINDOW, t)) > 0.0
  {
    var gains, losses := Gains(bars), Losses(bars);
    var gw, lw := Window(gains, RSI_WINDOW, t), Window(losses, RSI_WINDOW, t);
    GainLossSplit(bars, i);
    var k := i - (t - RSI_WINDOW + 1);
    WindowIndex(gains, RSI_WINDOW, t, i);
    WindowIndex(losses, RSI_WINDOW, t, i);
    if gains[i] > 0.0 {
      MeanPositive(gw, k);
    } else {
      MeanPositive(lw, k);
    }
  }

  lemma RsiUndefinedWithoutMove(bars: seq<Bar>, windowSize: int, t: int)
    requires RSI_WINDOW - 1 <= t < |bars|
    requires forall i :: t - RSI_WINDOW < i <= t && 1 <= i ==> bars[i].close == bars[i - 1].close
    ensures Rsi(bars, windowSize)[t] == None
  {
    var gains, losses := Gains(bars), Losses(bars);
    var gw, lw := Window(gains, RSI_WINDOW, t), Window(losses, RSI_WINDOW, t);
    RsiAt(bars, windowSize, t);
    forall k | 0 <= k < RSI_WINDOW ensures gw[k] == 0.0 && lw[k] == 0.0 {
      GainLossSplit(bars, t - RSI_WINDOW + 1 + k);
    }
    MeanOfConstant(gw, 0.0);
    MeanOfConstant(lw, 0.0);
  }

  /** Wherever the RSI is defined it lies in [0, 100]. */
  lemma RsiRange(bars: seq<Bar>, windowSize: int, t: int)
    requires RSI_WINDOW - 1 <= t < |bars|
    ensures Rsi(bars, windowSize)[t].Some? ==> 0.0 <= Rsi(bars, windowSize)[t].value <= 100.0
  {
    var gains, losses := Gains(bars), Losses(bars);
    forall i | 0 <= i < |bars| ensures gains[i] >= 0.0 && losses[i] >= 0.0 {
      GainLossSplit(bars, i);
    }
    NonNegativeMean(gains, t);
    NonNegativeMean(losses, t);
  }

  /** Closes that did not move over the last 15 bars (or since the first bar) leave
      both averages at 0, and the RSI is then undefined (0/0). */
  lemma RsiOfFlatCloses(bars: seq<Bar>, windowSize: int, t: int)
    requires RSI_WINDOW - 1 <= t < |bars|
    requires forall i :: t - RSI_WINDOW <= i <= t && 0 <= i ==> bars[i].close == bars[t].close
    ensures Rsi(bars, windowSize)[t] == None
  {
    var gains, losses := Gains(bars), Losses(bars);
    var gw, lw := Window(gains, RSI_WINDOW, t), Window(losses, RSI_WINDOW, t);
    forall i | 0 <= i < RSI_WINDOW ensures gw[i] == 0.0 && lw[i] == 0.0 {
      var k := t - RSI_WINDOW + 1 + i;
      if k > 0 {
        assert bars[k].close == bars[k - 1].close;
      }
    }
    MeanOfConstant(gw, 0.0);
    MeanOfConstant(lw, 0.0);
  }

  /** The window argument changes nothing: the averages always span 14 bars. */
  lemma RsiIgnoresWindowSize(bars: seq<Bar>, w1: int, w2: int)
    ensures Rsi(bars, w1) == Rsi(bars, w2)
  {
  }
}
