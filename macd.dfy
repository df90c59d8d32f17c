/** Moving average convergence/divergence: the difference of a short and a long
    exponential average of the close, and its own exponential average. */
module MacdIndicator {
  import opened Common
  import opened Stats
  import opened Rolling

  datatype MacdColumns = MacdColumns(macdLine: seq<real>, signalLine: seq<real>)

  /** `macd(short_window, long_window, signal_window)`: both columns are defined at every bar. */
  function Macd(bars: seq<Bar>, shortWindow: int, longWindow: int, signalWindow: int): (r: MacdColumns)
    requires shortWindow >= 1 && longWindow >= 1 && signalWindow >= 1
    ensures |r.macdLine| == |bars| && |r.signalLine| == |bars|
    ensures |bars| > 0 ==> r.macdLine[0] == 0.0 && r.signalLine[0] == 0.0
    ensures forall t :: 0 < t < |bars| ==>
              r.signalLine[t] == Alpha(signalWindow) * r.macdLine[t] + (1.0 - Alpha(signalWindow)) * r.signalLine[t - 1]
  {
    var closes := Closes(bars);
    var shortEma := Ema(closes, Alpha(shortWindow));
    var longEma := Ema(closes, Alpha(longWindow));
    var macdLine := seq(|bars|, t requires 0 <= t < |bars| => shortEma[t] - longEma[t]);
    MacdColumns(macdLine, Ema(macdLine, Alpha(signalWindow)))
  }

  /** The MACD line is the short average minus the long one at every bar, and the signal
      line follows it by the same recurrence, so both start at 0 on the first bar. */
  lemma MacdAt(bars: seq<Bar>, shortWindow: int, longWindow: int, signalWindow: int, t: int)
    requires shortWindow >= 1 && longWindow >= 1 && signalWindow >= 1
    requires 0 <= t < |bars|
    ensures Macd(bars, shortWindow, longWindow, signalWindow).macdLine[t]
         == EmaAt(Closes(bars), Alpha(shortWindow), t) - EmaAt(Closes(bars), Alpha(longWindow), t)
    ensures var r := Macd(bars, shortWindow, longWindow, signalWindow);
            r.signalLine[t] == if t == 0 then r.macdLine[0]
                               else Alpha(signalWindow) * r.macdLine[t] + (1.0 - Alpha(signalWindow)) * r.signalLine[t - 1]
    ensures t == 0 ==> Macd(bars, shortWindow, longWindow, signalWindow).macdLine[t] == 0.0
    ensures t == 0 ==> Macd(bars, shortWindow, longWindow, signalWindow).signalLine[t] == 0.0
  {
  }

  /** Constant closes make both lines 0 at every bar. */
  lemma MacdOfFlatCloses(bars: seq<Bar>, shortWindow: int, longWindow: int, signalWindow: int, c: real)
    requires shortWindow >= 1 && longWindow >= 1 && signalWindow >= 1
    requires forall t :: 0 <= t < |bars| ==> bars[t].close == c
    ensures var r := Macd(bars, shortWindow, longWindow, signalWindow);
            forall t :: 0 <= t < |bars| ==> r.macdLine[t] == 0.0 && r.signalLine[t] == 0.0
  {
    var closes := Closes(bars);
    EmaOfConstant(closes, Alpha(shortWindow), c);
    EmaOfConstant(closes, Alpha(longWindow), c);
    var r := Macd(bars, shortWindow, longWindow, signalWindow);
    assert forall t :: 0 <= t < |bars| ==> r.macdLine[t] == 0.0;
    EmaOfConstant(r.macdLine, Alpha(signalWindow), 0.0);
  }
}
