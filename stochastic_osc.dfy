/** Stochastic oscillator: where the close sits within the range of the last
    `window` bars (%K, in percent), and the three-bar mean of that (%D). */
module StochasticIndicator {
  import opened Common
  import opened Stats
  import opened Rolling

  datatype StochasticColumns = StochasticColumns(stochK: Series, stochD: Series)

  /** `(close - lowest_low) / (highest_high - lowest_low) * 100`, undefined when an extreme is
      undefined or the range is flat. For bars whose close lies within their own high/low
      range a flat window forces the close onto the flat level, so the division is 0/0
      (`PercentKFlatWindow`). */
  function PercentK(close: real, lowestLow: Option<real>, highestHigh: Option<real>): (r: Option<real>)
    ensures r.Some? <==> lowestLow.Some? && highestHigh.Some? && highestHigh.value != lowestLow.value
  {
    if lowestLow.Some? && highestHigh.Some? && highestHigh.value != lowestLow.value then
      Some((close - lowestLow.value) / (highestHigh.value - lowestLow.value) * 100.0)
    else None
  }

  /** `rolling(3).mean()` of %K at t: defined only when %K is defined at t - 2, t - 1 and t. */
  function PercentD(k: Series, t: int): Option<real>
    requires 0 <= t < |k|
  {
    if t >= 2 && k[t - 2].Some? && k[t - 1].Some? && k[t].Some? then
      Some((k[t - 2].value + k[t - 1].value + k[t].value) / 3.0)
    else None
  }

  /** `stochastic_osc(window_size)`. */
  function StochasticOsc(bars: seq<Bar>, windowSize: int): (r: StochasticColumns)
    requires windowSize >= 1
    ensures |r.stochK| == |bars| && |r.stochD| == |bars|
    ensures forall t :: 0 <= t < |bars| ==> r.stochD[t] == PercentD(r.stochK, t)
    ensures forall t :: 0 <= t < |bars| && t < windowSize - 1 ==> r.stochK[t] == None
    ensures forall t :: 0 <= t < |bars| && t <= windowSize ==> r.stochD[t] == None
  {
    var lowestLow := RollingMin(Lows(bars), windowSize);
    var highestHigh := RollingMax(Highs(bars), windowSize);
    var k := seq(|bars|, t requires 0 <= t < |bars| => PercentK(bars[t].close, lowestLow[t], highestHigh[t]));
    StochasticColumns(k, seq(|bars|, t requires 0 <= t < |bars| => PercentD(k, t)))
  }

  /** %K at t reads the window's lowest low and highest high; it is undefined before a full
      window and wherever the window's range is flat. */
  lemma PercentKAt(bars: seq<Bar>, windowSize: int, t: int)
    requires windowSize >= 1 && 0 <= t < |bars|
    ensures StochasticOsc(bars, windowSize).stochK[t]
         == PercentK(bars[t].close, RollingMin(Lows(bars), windowSize)[t], RollingMax(Highs(bars), windowSize)[t])
    ensures t < windowSize - 1 ==> StochasticOsc(bars, windowSize).stochK[t] == None
  {
  }

  /** For a close inside a non-flat range, %K lies in [0, 100]; it is 100 exactly at the
      highest high and 0 exactly at the lowest low. */
  lemma PercentKRange(close: real, lowestLow: real, highestHigh: real)
    requires lowestLow <= close <= highestHigh && lowestLow < highestHigh
    ensures var k := PercentK(close, Some(lowestLow), Some(highestHigh)).value;
            0.0 <= k <= 100.0 && (k == 100.0 <==> close == highestHigh) && (k == 0.0 <==> close == lowestLow)
  {
    var range := highestHigh - lowestLow;
    var q := (close - lowestLow) / range;
    assert q * range == close - lowestLow;
    assert 0.0 <= q <= 1.0;
    assert q == 1.0 <==> close == highestHigh;
  }

  /** Well-formed bars over a window with a non-flat range give a %K in [0, 100]. */
  lemma PercentKBounded(bars: seq<Bar>, windowSize: int, t: int)
    requires windowSize >= 1 && windowSize - 1 <= t < |bars|
    requires forall i :: 0 <= i < |bars| ==> WellFormed(bars[i])
    requires Min(Window(Lows(bars), windowSize, t)) < Max(Window(Highs(bars), windowSize, t))
    ensures StochasticOsc(bars, windowSize).stochK[t].Some?
    ensures 0.0 <= StochasticOsc(bars, windowSize).stochK[t].value <= 100.0
  {
    var ll, hh := Window(Lows(bars), windowSize, t), Window(Highs(bars), windowSize, t);
    assert Min(ll) <= ll[windowSize - 1] == bars[t].low;
    assert bars[t].high == hh[windowSize - 1] <= Max(hh);
    PercentKRange(bars[t].close, Min(ll), Max(hh));
  }

  /** Over a flat window of well-formed bars the close sits on the flat level, so the
      division is 0/0 and %K is undefined, as the model has it. */
  lemma PercentKFlatWindow(bars: seq<Bar>, windowSize: int, t: int)
    requires windowSize >= 1 && windowSize - 1 <= t < |bars|
    requires forall i :: 0 <= i < |bars| ==> WellFormed(bars[i])
    requires Min(Window(Lows(bars), windowSize, t)) == Max(Window(Highs(bars), windowSize, t))
    ensures bars[t].close - Min(Window(Lows(bars), windowSize, t)) == 0.0
    ensures StochasticOsc(bars, windowSize).stochK[t] == None
  {
    var ll, hh := Window(Lows(bars), windowSize, t), Window(Highs(bars), windowSize, t);
    assert Min(ll) <= ll[windowSize - 1] == bars[t].low;
    assert bars[t].high == hh[windowSize - 1] <= Max(hh);
  }

  /** %D is defined exactly when the last three %K values are, and lies between the least
      and the greatest of them. */
  lemma PercentDAt(k: Series, t: int)
    requires 0 <= t < |k|
    ensures PercentD(k, t).Some? <==> t >= 2 && k[t - 2].Some? && k[t - 1].Some? && k[t].Some?
    ensures PercentD(k, t).Some? ==>
              var w := [k[t - 2].value, k[t - 1].value, k[t].value];
              Min(w) <= PercentD(k, t).value <= Max(w)
  {
    if PercentD(k, t).Some? {
      var w := [k[t - 2].value, k[t - 1].value, k[t].value];
      assert Min(w) <= w[0] && Min(w) <= w[1] && Min(w) <= w[2];
      assert w[0] <= Max(w) && w[1] <= Max(w) && w[2] <= Max(w);
    }
  }
}
