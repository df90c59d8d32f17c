/** The six confirmation rules as decisions on the latest indicator values.
    An undefined value (NaN) makes every comparison it takes part in false,
    exactly as float comparison does. */
module Rules {
  import opened Common

  /** `ichimoku_crossover`: the tenkan-minus-kijun difference at the start and at the end of
      the recent window; a fall through 0 is -1, a rise through 0 is 1, anything else 0. */
  function CrossoverScore(first: Option<real>, last: Option<real>): (r: real)
    ensures r == -1.0 <==> Gt(first, Some(0.0)) && Lt(last, Some(0.0))
    ensures r == 1.0 <==> Lt(first, Some(0.0)) && Gt(last, Some(0.0))
    ensures r == 0.0 <==> !(Gt(first, Some(0.0)) && Lt(last, Some(0.0))) && !(Lt(first, Some(0.0)) && Gt(last, Some(0.0)))
  {
    if Gt(first, Some(0.0)) && Gt(Some(0.0), last) then -1.0
    else if Lt(first, Some(0.0)) && Lt(Some(0.0), last) then 1.0
    else 0.0
  }

  /** A window that starts and ends on the same value never reports a crossing. */
  lemma CrossoverOfOneValue(v: Option<real>)
    ensures CrossoverScore(v, v) == 0.0
  {
  }

  /** Python's `max(b, a)`: keeps b unless a is strictly greater, so a NaN a leaves b. */
  function PyMax(b: Option<real>, a: Option<real>): Option<real> {
    if Gt(a, b) then a else b
  }

  /** Python's `min(b, a)`: keeps b unless a is strictly smaller. */
  function PyMin(b: Option<real>, a: Option<real>): Option<real> {
    if Lt(a, b) then a else b
  }

  /** `ichimoku_kumo_relative_position`: 1 above the cloud, -1 below it, 0 inside. */
  function KumoScore(close: real, spanA: Option<real>, spanB: Option<real>): (r: real)
    ensures r in {-1.0, 0.0, 1.0}
    ensures spanA.Some? && spanB.Some? ==>
              (r == 1.0 <==> close > spanA.value && close > spanB.value) &&
              (r == -1.0 <==> close < spanA.value && close < spanB.value)
    ensures spanB.None? ==> r == 0.0
  {
    if Gt(Some(close), PyMax(spanB, spanA)) then 1.0
    else if Lt(Some(close), PyMin(spanB, spanA)) then -1.0
    else 0.0
  }

  /** With leading span A undefined, Python's max and min keep span B, and the close is
      judged against span B alone. */
  lemma KumoAgainstSpanBAlone(close: real, spanB: real)
    ensures KumoScore(close, None, Some(spanB)) == if close > spanB then 1.0 else if close < spanB then -1.0 else 0.0
  {
  }

  /** `ichimoku_cloud_color`: the sign of span A minus span B. */
  function CloudColorScore(spanA: Option<real>, spanB: Option<real>): (r: real)
    ensures r in {-1.0, 0.0, 1.0}
    ensures r == 1.0 <==> Gt(spanA, spanB)
    ensures r == -1.0 <==> Lt(spanA, spanB)
  {
    if Gt(spanA, spanB) then 1.0
    else if Lt(spanA, spanB) then -1.0
    else 0.0
  }

  /** Exchanging the spans flips the colour. */
  lemma CloudColorAntisymmetric(spanA: Option<real>, spanB: Option<real>)
    ensures CloudColorScore(spanB, spanA) == -CloudColorScore(spanA, spanB)
  {
  }

  /** The `rsi` rule: `(50 - rsi) / 100`, NaN for a NaN rsi. */
  function RsiScore(rsi: Option<real>): (r: Option<real>)
    ensures r.Some? <==> rsi.Some?
    ensures rsi.Some? && 0.0 <= rsi.value <= 100.0 ==> -0.5 <= r.value <= 0.5
    ensures rsi.Some? ==> (r.value > 0.0 <==> rsi.value < 50.0)
  {
    if rsi.Some? then Some((50.0 - rsi.value) / 100.0) else None
  }

  /** The rsi score falls strictly as the RSI rises. */
  lemma RsiScoreDecreasing(x: real, y: real)
    requires x < y
    ensures RsiScore(Some(x)).value > RsiScore(Some(y)).value
  {
  }

  /** The `keltner` rule on the last bar and the last band values. */
  function KeltnerScore(high: real, low: real, upper: Option<real>, middle: Option<real>, lower: Option<real>): (r: real)
    ensures r in {-1.0, 0.0, 0.5, 1.0}
    ensures r == -1.0 <==> Gt(Some(high), upper)
    ensures r == 1.0 <==> !Gt(Some(high), upper) && Lt(Some(low), lower)
    ensures r == 0.5 <==> !Gt(Some(high), upper) && !Lt(Some(low), lower) &&
                          (Gt(Some(high), middle) || Lt(Some(low), middle))
  {
    if Gt(Some(high), upper) then -1.0
    else if Lt(Some(low), lower) then 1.0
    else if Gt(Some(high), middle) then 0.5
    else if Lt(Some(low), middle) then 0.5
    else 0.0
  }

  /** A bar that breaks out on both sides counts as overbought, and a low under the middle
      band scores +0.5 like a high over it, so the rule never gives -0.5. */
  lemma KeltnerQuirks(high: real, low: real, upper: real, middle: real, lower: real)
    ensures high > upper && low < lower ==> KeltnerScore(high, low, Some(upper), Some(middle), Some(lower)) == -1.0
    ensures high <= upper && low >= lower && high <= middle && low < middle ==>
              KeltnerScore(high, low, Some(upper), Some(middle), Some(lower)) == 0.5
    ensures KeltnerScore(high, low, Some(upper), Some(middle), Some(lower)) != -0.5
  {
  }

  /** The `stochastic_osc` rule on the last %K and %D. */
  function StochasticScore(k: Option<real>, d: Option<real>): (r: real)
    ensures r in {-1.0, 1.0, 0.5, -0.5}
    ensures r == -1.0 <==> Gt(k, Some(80.0))
    ensures r == 1.0 <==> Lt(k, Some(20.0))
    ensures r == 0.5 <==> !Gt(k, Some(80.0)) && !Lt(k, Some(20.0)) && Gt(k, d)
  {
    if Gt(k, Some(80.0)) then -1.0
    else if Lt(k, Some(20.0)) then 1.0
    else if Gt(k, d) then 0.5
    else -0.5
  }

  /** The stochastic rule never abstains, and an undefined %K reads as bearish momentum. */
  lemma StochasticNeverNeutral(k: Option<real>, d: Option<real>)
    ensures StochasticScore(k, d) != 0.0
    ensures k.None? ==> StochasticScore(k, d) == -0.5
  {
  }
}
