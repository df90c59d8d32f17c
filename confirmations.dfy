/** The `Confirmations` object: it holds the latest indicator table and bar
    series, runs the six rules on their last rows, and aggregates the rounded
    scores into the returned dictionary. */
module ConfirmationEngine {
  import opened Common
  import opened Rules
  import opened Rounding
  import opened Stats
  import opened Aggregation

  /** The indicator columns the rules read, at one position. */
  datatype IndicatorRow = IndicatorRow(
    tenkan: Option<real>,
    kijun: Option<real>,
    leadSpanA: Option<real>,
    leadSpanB: Option<real>,
    rsi: Option<real>,
    upperKeltnerBand: Option<real>,
    middleKeltnerBand: Option<real>,
    lowerKeltnerBand: Option<real>,
    stochK: Option<real>,
    stochD: Option<real>)

  datatype Rule = CloudColorRule | CrossoverRule | KumoRule | KeltnerRule | RsiRule | StochasticRule {
    /** The name of the rule method, which is also its key in the dictionary. */
    function Name(): string {
      match this
      case CloudColorRule => "ichimoku_cloud_color"
      case CrossoverRule => "ichimoku_crossover"
      case KumoRule => "ichimoku_kumo_relative_position"
      case KeltnerRule => "keltner"
      case RsiRule => "rsi"
      case StochasticRule => "stochastic_osc"
    }
  }

  /** The rule methods in the order the reflection lists them (sorted by name). */
  const RULES: seq<Rule> := [CloudColorRule, CrossoverRule, KumoRule, KeltnerRule, RsiRule, StochasticRule]

  class Confirmations {
    var indicatorsDf: seq<IndicatorRow>
    var pairDf: seq<Bar>
    var recentWindowSize: int

    constructor (indicatorsDf: seq<IndicatorRow>, pairDf: seq<Bar>, recentWindowSize: int)
      ensures this.indicatorsDf == indicatorsDf && this.pairDf == pairDf
      ensures this.recentWindowSize == recentWindowSize
    {
      this.indicatorsDf := indicatorsDf;
      this.pairDf := pairDf;
      this.recentWindowSize := recentWindowSize;
    }

    /** Replaces both tables wholesale; the window size stays as constructed. */
    method UpdateIndicators(indicatorsDf: seq<IndicatorRow>, pairDf: seq<Bar>)
      modifies this
      ensures this.indicatorsDf == indicatorsDf && this.pairDf == pairDf
      ensures recentWindowSize == old(recentWindowSize)
    {
      this.indicatorsDf := indicatorsDf;
      this.pairDf := pairDf;
    }

    /** tenkan minus kijun at every position. */
    function Differences(): (r: Series)
      reads this
      ensures |r| == |indicatorsDf|
    {
      var rows := indicatorsDf;
      seq(|rows|, t requires 0 <= t < |rows| => Sub(rows[t].tenkan, rows[t].kijun))
    }

    /** `ichimoku_crossover`: compares the difference at the first and at the last of the
        last `recentWindowSize` positions; fails when that slice is empty. */
    function IchimokuCrossover(): (r: Result<Option<real>>)
      reads this
      ensures r.Err? <==> |PyTail(indicatorsDf, recentWindowSize)| == 0
      ensures recentWindowSize > 0 && |indicatorsDf| > 0 ==>
                var n := |indicatorsDf|;
                var first := if recentWindowSize < n then n - recentWindowSize else 0;
                r == Ok(Some(CrossoverScore(Differences()[first], Differences()[n - 1])))
    {
      var window := PyTail(Differences(), recentWindowSize);
      if |window| == 0 then Err(IndexError)
      else Ok(Some(CrossoverScore(window[0], window[|window| - 1])))
    }

    /** `ichimoku_kumo_relative_position` on the last close and the last spans. */
    function IchimokuKumoRelativePosition(): (r: Result<Option<real>>)
      reads this
      ensures r.Err? <==> |pairDf| == 0 || |indicatorsDf| == 0
      ensures r.Ok? ==> r.value == Some(KumoScore(pairDf[|pairDf| - 1].close, indicatorsDf[|indicatorsDf| - 1].leadSpanA,
                                                  indicatorsDf[|indicatorsDf| - 1].leadSpanB))
    {
      if |pairDf| == 0 || |indicatorsDf| == 0 then Err(IndexError)
      else
        var row := indicatorsDf[|indicatorsDf| - 1];
        Ok(Some(KumoScore(pairDf[|pairDf| - 1].close, row.leadSpanA, row.leadSpanB)))
    }

    /** `ichimoku_cloud_color` on the last spans. */
    function IchimokuCloudColor(): (r: Result<Option<real>>)
      reads this
      ensures r.Err? <==> |indicatorsDf| == 0
      ensures r.Ok? ==> r.value == Some(CloudColorScore(indicatorsDf[|indicatorsDf| - 1].leadSpanA,
                                                        indicatorsDf[|indicatorsDf| - 1].leadSpanB))
    {
      if |indicatorsDf| == 0 then Err(IndexError)
      else
        var row := indicatorsDf[|indicatorsDf| - 1];
        Ok(Some(CloudColorScore(row.leadSpanA, row.leadSpanB)))
    }

    /** The `rsi` rule on the last RSI value. */
    function Rsi(): (r: Result<Option<real>>)
      reads this
      ensures r.Err? <==> |indicatorsDf| == 0
      ensures r.Ok? ==> r.value == RsiScore(indicatorsDf[|indicatorsDf| - 1].rsi)
    {
      if |indicatorsDf| == 0 then Err(IndexError)
      else Ok(RsiScore(indicatorsDf[|indicatorsDf| - 1].rsi))
    }

    /** The `keltner` rule on the last bar and the last band values. */
    function Keltner(): (r: Result<Option<real>>)
      reads this
      ensures r.Err? <==> |pairDf| == 0 || |indicatorsDf| == 0
      ensures r.Ok? ==>
                var bar, row := pairDf[|pairDf| - 1], indicatorsDf[|indicatorsDf| - 1];
                r.value == Some(KeltnerScore(bar.high, bar.low, row.upperKeltnerBand, row.middleKeltnerBand, row.lowerKeltnerBand))
    {
      if |pairDf| == 0 || |indicatorsDf| == 0 then Err(IndexError)
      else
        var bar, row := pairDf[|pairDf| - 1], indicatorsDf[|indicatorsDf| - 1];
        Ok(Some(KeltnerScore(bar.high, bar.low, row.upperKeltnerBand, row.middleKeltnerBand, row.lowerKeltnerBand)))
    }

    /** The `stochastic_osc` rule on the last %K and %D. */
    function StochasticOsc(): (r: Result<Option<real>>)
      reads this
      ensures r.Err? <==> |indicatorsDf| == 0
      ensures r.Ok? ==> r.value == Some(StochasticScore(indicatorsDf[|indicatorsDf| - 1].stochK, indicatorsDf[|indicatorsDf| - 1].stochD))
    {
      if |indicatorsDf| == 0 then Err(IndexError)
      else
        var row := indicatorsDf[|indicatorsDf| - 1];
        Ok(Some(StochasticScore(row.stochK, row.stochD)))
    }

    function Evaluate(rule: Rule): Result<Option<real>>
      reads this
    {
      match rule
      case CloudColorRule => IchimokuCloudColor()
      case CrossoverRule => IchimokuCrossover()
      case KumoRule => IchimokuKumoRelativePosition()
      case KeltnerRule => Keltner()
      case RsiRule => Rsi()
      case StochasticRule => StochasticOsc()
    }

    /** Every one of the first n rules ran without raising. */
    predicate SucceedUpTo(n: int)
      reads this
      requires 0 <= n <= |RULES|
    {
      n == 0 || (SucceedUpTo(n - 1) && Evaluate(RULES[n - 1]).Ok?)
    }

    /** The rules succeed up to n exactly when each of the first n does. */
    lemma {:induction false} SucceedUpToEach(n: int)
      requires 0 <= n <= |RULES|
      ensures SucceedUpTo(n) <==> forall j :: 0 <= j < n ==> Evaluate(RULES[j]).Ok?
    {
      if n > 0 {
        SucceedUpToEach(n - 1);
      }
    }

    /** The entries `aggregate_sentiments` records for the first n rules: each rule's name
        with its rounded score, in order. */
    function EntriesUpTo(n: int): (r: seq<Entry>)
      reads this
      requires 0 <= n <= |RULES| && SucceedUpTo(n)
      ensures |r| == n
    {
      if n == 0 then []
      else EntriesUpTo(n - 1) + [Entry(RULES[n - 1].Name(), Round2Opt(Evaluate(RULES[n - 1]).value))]
    }

    /** With one position in the window the first and last differences coincide, so no
        crossing is ever reported. */
    lemma CrossoverWithWindowOfOne()
      requires recentWindowSize == 1 && |indicatorsDf| > 0
      ensures IchimokuCrossover() == Ok(Some(0.0))
    {
      var n := |indicatorsDf|;
      assert (if recentWindowSize < n then n - recentWindowSize else 0) == n - 1;
      CrossoverOfOneValue(Differences()[n - 1]);
    }

    /** The recorded entries are the rules in order, each with its own rounded score. */
    lemma {:induction false} EntriesUpToAt(n: int)
      requires 0 <= n <= |RULES| && SucceedUpTo(n)
      ensures SucceedUpTo(n) ==> forall j :: 0 <= j < n ==> Evaluate(RULES[j]).Ok?
      ensures forall j :: 0 <= j < n ==> EntriesUpTo(n)[j] == Entry(RULES[j].Name(), Round2Opt(Evaluate(RULES[j]).value))
    {
      SucceedUpToEach(n);
      if n > 0 {
        EntriesUpToAt(n - 1);
      }
    }

    /** The recorded names are the rule names, pairwise distinct and distinct from the two
        summary keys. */
    lemma EntryNames()
      requires SucceedUpTo(|RULES|)
      ensures var entries := EntriesUpTo(|RULES|);
              && DistinctNames(entries)
              && (forall i :: 0 <= i < |entries| ==> entries[i].name != "average" && entries[i].name != "confidence")
              && Names(entries) == set j | 0 <= j < |RULES| :: RULES[j].Name()
    {
      var entries := EntriesUpTo(|RULES|);
      EntriesUpToAt(|RULES|);
      RuleNamesDistinct();
      forall n | n in Names(entries) ensures exists j :: 0 <= j < |RULES| && RULES[j].Name() == n {
        var e :| e in entries && e.name == n;
        var j :| 0 <= j < |entries| && entries[j] == e;
      }
      forall j | 0 <= j < |RULES| ensures RULES[j].Name() in Names(entries) {
        assert entries[j] in entries;
      }
    }

    /** When every rule succeeds, the dictionary holds each rule's rounded score under the
        rule's name, and nothing else but "average" and "confidence". */
    lemma SentimentsContents()
      requires SucceedUpTo(|RULES|)
      ensures var d := Sentiments(EntriesUpTo(|RULES|));
              && d.Keys == (set j | 0 <= j < |RULES| :: RULES[j].Name()) + {"average", "confidence"}
              && forall j :: 0 <= j < |RULES| && Evaluate(RULES[j]).Ok? ==>
                   RULES[j].Name() in d && d[RULES[j].Name()] == Round2Opt(Evaluate(RULES[j]).value)
    {
      EntryNames();
      EntriesUpToAt(|RULES|);
      SentimentsLookup(EntriesUpTo(|RULES|));
    }

    /** `aggregate_sentiments`: runs every rule in order, adds up rounded scores and
        weights, records each score under its rule's name, then adds the rounded average
        and the rounded confidence. The first rule that raises aborts the whole call. */
    method AggregateSentiments() returns (result: Result<map<string, Option<real>>>)
      ensures result.Err? <==> !SucceedUpTo(|RULES|)
      ensures result.Ok? ==> SucceedUpTo(|RULES|) && result.value == Sentiments(EntriesUpTo(|RULES|))
    {
      var totalSum: Option<real> := Some(0.0);
      var totalWeight := 0.0;
      var confirmations: map<string, Option<real>> := map[];
      var values: seq<Option<real>> := [];
      ghost var entries: seq<Entry> := [];
      for i := 0 to |RULES|
        invariant SucceedUpTo(i) && entries == EntriesUpTo(i)
        invariant Tally(totalSum, totalWeight, confirmations, values) == TallyOf(entries)
      {
        var rule := RULES[i];
        var outcome := Evaluate(rule);
        if outcome.Err? {
          SucceedUpToEach(|RULES|);
          return Err(outcome.error);
        }
        var value := Round2Opt(outcome.value);
        var weight := 1.0;
        if value.Some? && -0.1 < value.value < 0.1 {
          weight := 0.5;
        }
        TallySnoc(entries, Entry(rule.Name(), value));
        totalSum := Add(totalSum, value);
        totalWeight := totalWeight + weight;
        confirmations := confirmations[rule.Name() := value];
        values := values + [value];
        entries := entries + [Entry(rule.Name(), value)];
      }
      TallySentiments(EntriesUpTo(|RULES|));
      var average := AverageOf(totalSum, totalWeight);
      confirmations := confirmations["average" := average];
      var confidence := ConfidenceOf(values + [average]);
      result := Ok(confirmations["confidence" := confidence]);
    }
  }

  /** The rule names differ from each other and from the two summary keys. */
  lemma RuleNamesDistinct()
    ensures forall i, j :: 0 <= i < j < |RULES| ==> RULES[i].Name() != RULES[j].Name()
    ensures forall i :: 0 <= i < |RULES| ==> RULES[i].Name() != "average" && RULES[i].Name() != "confidence"
  {
  }
}
