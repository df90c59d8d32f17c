# equilibrium-algo confirmation engine, modelled in Dafny

This project models the signal core of equilibrium-algo. The core turns a series of
price bars into one directional signal. It has three stages:

* **Indicators.** These are pure series computations over the bars: Ichimoku
  (tenka, kijun, leading spans A and B, lagging span), RSI, MACD, Keltner channel,
  Bollinger bands and the stochastic oscillator. A series position that pandas
  leaves as NaN is `None` in the model.
* **Rules.** The `Confirmations` object holds the latest indicator table, the bar
  table and the `recent_window_size`. Each of its six rules reads the last row
  (or the last `recent_window_size` rows) and returns a score. A comparison that
  involves an undefined value is false, as a float comparison with NaN is, so the
  rules score NaN inputs rather than fail. An empty table makes `iloc[-1]` raise an
  `IndexError`; this is the `Err(IndexError)` result.
* **Aggregation.** `aggregate_sentiments` runs the rules in the order the method
  reflection lists them (sorted by name) and rounds each score to two decimals.
  * It accumulates the plain sum of the scores and a sum of weights. A weight is
    1/2 for a score strictly between -0.1 and 0.1 and 1 otherwise.
  * It records every score under its rule's name.
  * It adds `average` = round(sum / weights, 2).
  * It adds `confidence` = round(1 − population variance of every value in the
    dictionary, the average included, 2).
  * The first rule that raises aborts the whole call.

Modules, one file each:

* `Common`: bars, series, `Option`/`Result`, NaN-aware comparisons, `shift` and
  Python's `s[-n:]`.
* `Stats`: sum, mean, max, min and sample variance.
* `Rolling`: the rolling window operations and `ewm(adjust=False)`.
* `Rounding`: `round(x, 2)`.
* One module per indicator file.
* `Rules`: the six scoring decisions.
* `Aggregation`: the specification of `aggregate_sentiments` as functions over the
  recorded entries.
* `ConfirmationEngine`: the `Confirmations` class. Its `AggregateSentiments`
  method keeps the source's loop and is proved against `Aggregation.Sentiments`.

The Ichimoku object is a class, because the source updates its fields in place;
`Confirmations` is a class for the same reason. All other indicators are pure
functions.

## Model

| member | source | states |
|---|---|---|
| ConfirmationEngine.Confirmations.constructor | data/confirmations.py:13-16 | the object holds the given indicator table, bar table and window size |
| ConfirmationEngine.Confirmations.UpdateIndicators | data/confirmations.py:18-20 | both tables are replaced; the window size keeps its constructed value |
| ConfirmationEngine.Confirmations.Differences | data/confirmations.py:62-65 | the tenkan − kijun series has one position per indicator row |
| ConfirmationEngine.Confirmations.IchimokuCrossover | data/confirmations.py:62-76 | raises exactly when the slice `diff[-w:]` is empty; for w > 0 it scores the difference at position max(n − w, 0) against the one at n − 1 |
| ConfirmationEngine.Confirmations.CrossoverWithWindowOfOne | data/confirmations.py:71-76 | with a window of one the first and last differences coincide, so the score is always 0 |
| ConfirmationEngine.Confirmations.IchimokuKumoRelativePosition | data/confirmations.py:82-93 | raises exactly when the bar table or the indicator table is empty; otherwise scores the last close against the last row's spans as `Rules.KumoScore` does |
| ConfirmationEngine.Confirmations.IchimokuCloudColor | data/confirmations.py:99-109 | raises exactly when the indicator table is empty; otherwise scores the last row's spans as `Rules.CloudColorScore` does |
| ConfirmationEngine.Confirmations.Rsi | data/confirmations.py:116-118 | raises exactly when the indicator table is empty; otherwise scores the last RSI as `Rules.RsiScore` does |
| ConfirmationEngine.Confirmations.Keltner | data/confirmations.py:147-159 | raises exactly when the bar table or the indicator table is empty; otherwise scores the last bar's high and low against the last row's bands as `Rules.KeltnerScore` does |
| ConfirmationEngine.Confirmations.StochasticOsc | data/confirmations.py:162-172 | raises exactly when the indicator table is empty; otherwise scores the last %K and %D as `Rules.StochasticScore` does |
| ConfirmationEngine.Confirmations.SucceedUpToEach | data/confirmations.py:36-38 | the loop gets past rule n exactly when each of the first n rules returns without raising |
| ConfirmationEngine.Confirmations.EntriesUpToAt | data/confirmations.py:36-48 | the j-th recorded entry is the j-th rule's name with its rounded score |
| ConfirmationEngine.Confirmations.EntryNames | data/confirmations.py:30-37 | the recorded names are exactly the six rule names, pairwise distinct and different from "average" and "confidence" |
| ConfirmationEngine.Confirmations.SentimentsContents | data/confirmations.py:34-53 | the dictionary's keys are the six rule names plus "average" and "confidence", and each rule's rounded score sits under its name |
| ConfirmationEngine.Confirmations.AggregateSentiments | data/confirmations.py:22-53 | fails exactly when some rule raises; otherwise returns the specified dictionary of the entries the rules produce |
| ConfirmationEngine.RuleNamesDistinct | data/confirmations.py:30-37 | the rule names differ from each other and from the two summary keys, so no key is overwritten |
| Rules.CrossoverScore | data/confirmations.py:71-76 | −1 exactly for a fall through 0, 1 exactly for a rise through 0, 0 otherwise (NaN ends never cross) |
| Rules.CrossoverOfOneValue | data/confirmations.py:71-76 | the same value at both ends never reports a crossing |
| Rules.KumoScore | data/confirmations.py:86-93 | with both spans defined: 1 exactly above both, −1 exactly below both; with span B NaN: 0, whatever span A is |
| Rules.KumoAgainstSpanBAlone | data/confirmations.py:86-93 | Python's max/min keep span B when span A is NaN, so the close is judged against span B alone |
| Rules.CloudColorScore | data/confirmations.py:102-109 | 1 exactly when span A > span B, −1 exactly when span A < span B |
| Rules.CloudColorAntisymmetric | data/confirmations.py:102-109 | exchanging the spans negates the colour |
| Rules.RsiScore | data/confirmations.py:118 | NaN exactly for a NaN RSI; an RSI in [0, 100] scores in [−1/2, 1/2]; positive exactly below 50 |
| Rules.RsiScoreDecreasing | data/confirmations.py:118 | the score falls strictly as the RSI rises |
| Rules.KeltnerScore | data/confirmations.py:150-159 | −1 exactly above the upper band; 1 exactly below the lower band otherwise; 0.5 exactly on the middle-band tests; values only in {−1, 0, 0.5, 1} |
| Rules.KeltnerQuirks | data/confirmations.py:150-159 | a bar breaking both bands scores −1; a low under the middle band scores +0.5; −0.5 never occurs |
| Rules.StochasticScore | data/confirmations.py:164-172 | −1 exactly for %K > 80, 1 exactly for %K < 20, 0.5 exactly when %K > %D in between, else −0.5 |
| Rules.StochasticNeverNeutral | data/confirmations.py:164-172 | the score is never 0, and a NaN %K scores −0.5 |
| Aggregation.Weight | data/confirmations.py:41-43 | every weight is 1/2 or 1 |
| Aggregation.TotalWeightBounds | data/confirmations.py:41-46 | the weight sum lies between n/2 and n |
| Aggregation.Total | data/confirmations.py:45 | the sum is NaN exactly when some score is |
| Aggregation.Average | data/confirmations.py:50 | the average is NaN exactly when some score is |
| Aggregation.Variance | data/confirmations.py:51 | the variance is NaN exactly when some value is, and is never negative |
| Aggregation.ConfidenceOf | data/confirmations.py:51 | the confidence is NaN exactly when some value is |
| Aggregation.Confidence | data/confirmations.py:51 | the confidence over the scores and their average is NaN exactly when some score is |
| Aggregation.InsertionsContents | data/confirmations.py:48 | the dictionary's keys are exactly the inserted names; with distinct names each holds its own score |
| Aggregation.SmallScoresCountDouble | data/confirmations.py:41-50 | n equal scores c with abs(c) < 0.1 average to round(2c, 2), not c |
| Aggregation.AverageBounded | data/confirmations.py:41-50 | scores in [−1, 1] give an average in [−1, 1] |
| Aggregation.ConfidenceAtMostOne | data/confirmations.py:51 | the confidence never exceeds 1 |
| Aggregation.AggregateOrderIndependent | data/confirmations.py:45-51 | the average and the confidence depend only on the multiset of scores |
| Aggregation.ScoresPermutation | data/confirmations.py:36-48 | permuted entries have permuted scores |
| Aggregation.InsertionsOrderIndependent | data/confirmations.py:48 | inserting distinctly named entries in any order gives the same dictionary |
| Aggregation.SentimentsOrderIndependent | data/confirmations.py:30-53 | running distinctly named rules in any order gives the same returned dictionary |
| Aggregation.TallySnoc | data/confirmations.py:38-48 | one more entry adds its score to the sum, its weight to the weights and its name to the dictionary |
| Aggregation.TallyValues | data/confirmations.py:48 | the values collected by the loop are the entries' scores |
| Aggregation.TallyDict | data/confirmations.py:48 | the loop's dictionary is the insertion of every entry |
| Aggregation.TallyWeight | data/confirmations.py:41-46 | the loop's weight is the weight sum of the scores |
| Aggregation.TallySum | data/confirmations.py:45 | the loop's sum is the plain sum of the scores, NaN once one is NaN |
| Aggregation.TallySentiments | data/confirmations.py:45-51 | after the loop the weight is positive, and completing the dictionary with the average and the confidence gives the specified result |
| Aggregation.Sentiments | data/confirmations.py:45-51 | the keys are the entries' names plus "average" and "confidence"; the average is NaN exactly when some score is, and the confidence exactly when the average is |
| Aggregation.SentimentsLookup | data/confirmations.py:48-51 | with distinct names other than the summary keys, the result has one key per entry plus "average" and "confidence", each entry's score under its name |
| Rounding.Hundredths | data/confirmations.py:38 | the kept number of hundredths is within 1/2 of 100x |
| Rounding.Round2 | data/confirmations.py:38 | the result is within 1/200 of x and has at most two decimals |
| Rounding.Round2Exact | data/confirmations.py:38 | a value with at most two decimals is unchanged |
| Rounding.Round2Monotone | data/confirmations.py:38 | rounding preserves order |
| Rounding.Round2Within | data/confirmations.py:50 | rounding keeps a value inside an interval whose ends have at most two decimals |
| Common.PyTail | data/confirmations.py:71 | `s[-n:]` is a suffix: of length min(n, len) for n > 0, the whole sequence for n = 0, and without the first −n elements for n < 0 |
| Common.Defined | data/indicators/ichimoku.py:40 | a column of floats is defined at every position with the same values |
| Stats.Max | data/indicators/ichimoku.py:12 | the maximum is an element and bounds every element |
| Stats.Min | data/indicators/ichimoku.py:13 | the minimum is an element and is below every element |
| Stats.SumByPermutation | data/confirmations.py:45-51 | a sum does not depend on the order of its terms |
| Stats.MeanBetween | data/indicators/bollinger.py:19 | a mean of values in [lo, hi] lies in [lo, hi] |
| Stats.MeanPositive | data/indicators/rsi.py:19-20 | non-negative values, one of them positive, have a positive mean |
| Stats.SampleVarianceNonNegative | data/indicators/bollinger.py:22 | the sample variance is never negative |
| Stats.SampleVarianceOfConstant | data/indicators/bollinger.py:22 | equal values have sample variance 0 |
| Rolling.Window | data/indicators/bollinger.py:19 | the window ending at t holds the w values ending at t, in order |
| Rolling.RollingMax | data/indicators/ichimoku.py:12 | `rolling(w).max()` is defined exactly from position w − 1 on |
| Rolling.RollingMin | data/indicators/ichimoku.py:13 | `rolling(w).min()` is defined exactly from position w − 1 on |
| Rolling.RollingMean | data/indicators/bollinger.py:19 | `rolling(w).mean()` is defined exactly from position w − 1 on |
| Rolling.Alpha | data/indicators/macd.py:17 | the smoothing factor 2/(span + 1) lies in (0, 1] |
| Rolling.Ema | data/indicators/macd.py:17 | `ewm(span, adjust=False).mean()`: the first value is the first input, and each later value is alpha × input + (1 − alpha) × previous value |
| Rolling.EmaAt | data/indicators/macd.py:17 | with alpha = 1 the average at t is the input at t |
| Rolling.EmaOfSpanOne | data/indicators/macd.py:17 | a span of 1 gives alpha = 1, so the exponential average is the input itself |
| Rolling.EmaBetween | data/indicators/macd.py:17 | the exponential average stays inside any bounds its inputs so far respect |
| Rolling.EmaWithinExtremes | data/indicators/keltner.py:20 | the exponential average at t lies between the least and greatest input up to t |
| Rolling.EmaOfConstant | data/indicators/macd.py:17-21 | a constant input gives a constant exponential average |
| IchimokuIndicator.TenkaLine | data/indicators/ichimoku.py:12-14 | defined exactly from position w − 1 on |
| IchimokuIndicator.KijunLine | data/indicators/ichimoku.py:16-20 | the kijun line is the tenka computation with its own window |
| IchimokuIndicator.TenkaValue | data/indicators/ichimoku.py:12-14 | the value is the midpoint of the window's highest high and lowest low, and lies between them for well-formed bars |
| IchimokuIndicator.LeadSpanA | data/indicators/ichimoku.py:22-26 | one value per bar, defined exactly from shift + 25 up to the end of the shifted data |
| IchimokuIndicator.LeadSpanB | data/indicators/ichimoku.py:28-34 | one value per bar, defined exactly from shift + w − 1 up to the end of the shifted data |
| IchimokuIndicator.LaggingSpan | data/indicators/ichimoku.py:36-40 | the value at t is the close at t + shift, undefined where that index is outside the bars |
| IchimokuIndicator.LeadSpanAAt | data/indicators/ichimoku.py:22-26 | span A at t is the tenka/kijun midpoint at t − shift; with the defaults it is defined exactly from index 51 |
| IchimokuIndicator.LeadSpanBAt | data/indicators/ichimoku.py:28-34 | span B at t is the w-bar midpoint at t − shift; with the defaults it is defined exactly from index 77 |
| IchimokuIndicator.LaggingSpanAt | data/indicators/ichimoku.py:36-40 | the lagging span at t is the close at t + shift, undefined past the end |
| IchimokuIndicator.IchimokuTable | data/indicators/ichimoku.py:48-54 | one row per bar holding the five default-parameter columns at that bar |
| IchimokuIndicator.Ichimoku.constructor | data/indicators/ichimoku.py:5-6 | the object holds the given bars and no table yet |
| IchimokuIndicator.Ichimoku.UpdateIchimokuDf | data/indicators/ichimoku.py:42-55 | stores the new bars, and keeps and returns the table built from them |
| RsiIndicator.Delta | data/indicators/rsi.py:15 | `diff()` is undefined at the first bar; after it, the previous close plus the difference is the close |
| RsiIndicator.Gains | data/indicators/rsi.py:16 | a gain is never negative, and a positive gain is the close's rise |
| RsiIndicator.Losses | data/indicators/rsi.py:17 | a loss is never negative, and a positive loss is the close's fall |
| RsiIndicator.GainLossSplit | data/indicators/rsi.py:15-17 | gains and losses are never negative, never both positive, both 0 at the first bar, and differ by the close's change afterwards |
| RsiIndicator.RsiValue | data/indicators/rsi.py:22-24 | undefined exactly for 0/0; equals 100·gain/(gain + loss) in [0, 100) for a positive loss; 100 for a zero loss and a positive gain |
| RsiIndicator.Rsi | data/indicators/rsi.py:19-24 | undefined before the first full 14-bar window |
| RsiIndicator.RsiAt | data/indicators/rsi.py:19-24 | from the first full window on, the RSI is the ratio rule applied to the 14-bar mean gain and mean loss, both non-negative |
| RsiIndicator.RsiDefined | data/indicators/rsi.py:15-24 | from the first full window on, the RSI is defined exactly when the close moved at some step inside the 14-bar window |
| RsiIndicator.RsiRange | data/indicators/rsi.py:19-24 | a defined RSI lies in [0, 100] |
| RsiIndicator.RsiOfFlatCloses | data/indicators/rsi.py:15-24 | closes that did not move over the window leave the RSI undefined |
| RsiIndicator.RsiIgnoresWindowSize | data/indicators/rsi.py:19-20 | the `window_size` argument does not change the result |
| MacdIndicator.Macd | data/indicators/macd.py:4-26 | two columns, one value per bar; both lines are 0 at the first bar, and the signal line is the exponential average of the MACD line |
| MacdIndicator.MacdAt | data/indicators/macd.py:17-21 | the MACD line is the short minus the long exponential average; the signal line follows it by the same recurrence; both are 0 at the first bar |
| MacdIndicator.MacdOfFlatCloses | data/indicators/macd.py:17-26 | constant closes make both lines 0 everywhere |
| KeltnerIndicator.Keltner | data/indicators/keltner.py:4-34 | three columns, one value per bar; the middle band is defined at every bar and the outer bands exactly from position atr_period − 1 on |
| KeltnerIndicator.KeltnerMiddleAt | data/indicators/keltner.py:20 | the middle band at t is the exponential average of the closes at t |
| KeltnerIndicator.Ranges | data/indicators/keltner.py:23 | one range per bar: the low plus the range is the high, and a bar with low ≤ high has a non-negative range |
| KeltnerIndicator.Atr | data/indicators/keltner.py:23-24 | the average range is defined exactly from position atr_period − 1 on |
| KeltnerIndicator.AtrAt | data/indicators/keltner.py:23-24 | from position atr_period − 1 on, the average range at t is the mean of high − low over the last atr_period bars |
| KeltnerIndicator.KeltnerBandsAt | data/indicators/keltner.py:23-28 | the outer bands are defined exactly with the average range and sit multiplier × range above and below the middle band |
| KeltnerIndicator.AtrNonNegative | data/indicators/keltner.py:23-24 | bars with low ≤ high have a defined, non-negative average range from position atr_period − 1 on |
| KeltnerIndicator.KeltnerOrdered | data/indicators/keltner.py:23-28 | bars with low ≤ high give lower ≤ middle ≤ upper for a non-negative multiplier |
| KeltnerIndicator.KeltnerCollapses | data/indicators/keltner.py:23-28 | bars with high = low collapse the channel onto the middle band |
| BollingerIndicator.Bollinger | data/indicators/bollinger.py:4-32 | three columns, one value per bar; the middle band is defined exactly from position w − 1 on, the outer bands exactly from there and only for w ≥ 2 |
| BollingerIndicator.RollingStd | data/indicators/bollinger.py:22 | the standard deviation is defined exactly from position w − 1 on, and only for w ≥ 2 |
| BollingerIndicator.BollingerBandsAt | data/indicators/bollinger.py:19-26 | the middle band is the window mean; the outer bands are defined with the deviation and sit multiplier × deviation from the middle |
| BollingerIndicator.BollingerOrdered | data/indicators/bollinger.py:19-26 | lower ≤ middle ≤ upper for a non-negative multiplier |
| BollingerIndicator.BollingerCollapses | data/indicators/bollinger.py:19-26 | equal closes collapse all three bands onto the close |
| StochasticIndicator.StochasticOsc | data/indicators/stochastic_osc.py:4-28 | two columns, one value per bar; %K is undefined before a full window, %D before position window + 1, and %D at t is the mean of the three %K values ending at t |
| StochasticIndicator.PercentK | data/indicators/stochastic_osc.py:20 | %K is defined exactly when both extremes are defined and differ |
| StochasticIndicator.PercentKAt | data/indicators/stochastic_osc.py:16-20 | %K at t reads the window's lowest low and highest high, and is undefined before a full window |
| StochasticIndicator.PercentKRange | data/indicators/stochastic_osc.py:20 | inside a non-flat range %K lies in [0, 100]; it is 100 exactly at the high and 0 exactly at the low |
| StochasticIndicator.PercentKBounded | data/indicators/stochastic_osc.py:16-20 | well-formed bars over a non-flat window give a defined %K in [0, 100] |
| StochasticIndicator.PercentKFlatWindow | data/indicators/stochastic_osc.py:16-20 | for well-formed bars over a flat window, the close sits on the flat level, so the source divides 0 by 0 and %K is undefined |
| StochasticIndicator.PercentDAt | data/indicators/stochastic_osc.py:23 | %D is defined exactly when the last three %K values are, and lies between their least and greatest |

## Left out

- The caller and the helpers are not part of this model: the main loop in `main.py`
  and the data fetching and table assembly in `data/utils.py`. Clock, network and
  printing belong to them.
- Floats are exact reals. Overflow, infinities and binary rounding are not modelled.
  The RSI's zero average loss is written out: the ratio is infinite, so the RSI is
  100.
- Rounding.Round2: rounds the exact real half-to-even. Python rounds the binary
  float's exact decimal value, so a result can differ when the float is not exactly
  what it prints as.
- BollingerIndicator.RollingStd: the square root is a function parameter, because
  exact reals have no computable square root. The lemmas assume only that it is
  non-negative, and that sqrt(0) = 0.
- Column lookup by name is replaced by record fields. This leaves out two things.
  The Ichimoku table names its conversion column "tenka" while the crossover rule
  reads "tenkan". The indicator table that `main.py:34` assembles holds the
  Ichimoku, RSI, MACD, Bollinger and stochastic columns and no Keltner columns.
  Neither is fixed anywhere in the program. As written, `data/confirmations.py:62`
  raises `KeyError` on every call, so `aggregate_sentiments` never returns, and
  `main.py:42` discards the error. The model assumes the table carries the columns
  the rules read. `KeyError` is therefore not one of its failures.
- Rolling windows and spans below 1 are excluded by `requires`. pandas rejects a
  negative window; a window of 0 gives an all-NaN column, and no caller passes one.
  The crossover's `recent_window_size` is modelled for every integer, Python slicing
  included.
- The method reflection in `aggregate_sentiments` is the fixed list `RULES`: the six
  rule methods sorted by name. The commented-out MACD rule is not a rule.
  `aggregate_sentiments` and `update_indicators` are excluded by name, exactly as
  the source does.
- The aggregation computes only the plain-sum average and the variance confidence.
  There is no grouped weighting, classification label or consensus count. Rules
  score NaN inputs through comparisons instead of failing.
- StochasticIndicator.PercentK: when the window's lowest low equals its highest high
  but the close lies off that level, the source divides a non-zero number by 0, so %K
  is ±inf and the rule scores −1 or 1. The model leaves %K undefined there, and the
  rule scores −0.5. This needs a close outside its own bar's high–low range: for bars
  with low ≤ close ≤ high, `PercentKFlatWindow` proves the division is 0/0, which is
  NaN in both.
- The indicator functions `Macd`, `Keltner`, `Bollinger` and `StochasticOsc` state
  their column lengths, where each column is defined, and their recurrences. The
  value at each bar is stated by the `…At` lemmas beside them.
- Confidence is computed over the list of scores followed by the average. The source
  takes the dictionary's values. The two agree because the rule names are distinct
  and differ from "average" (`RuleNamesDistinct`), and a dictionary keeps insertion
  order.
