/** The Ichimoku cloud: conversion (tenka) and base (kijun) lines, the two
    leading spans shifted forward, the lagging span shifted back, and the
    `Ichimoku` object that keeps the latest bar series and its table. */
module IchimokuIndicator {
  import opened Common
  import opened Stats
  import opened Rolling

  const TENKA_WINDOW := 9
  const KIJUN_WINDOW := 26
  const SPAN_B_WINDOW := 52
  const DISPLACEMENT := 26

  /** `tenka_line(w)`: midpoint of the highest high and the lowest low of the last w bars. */
  function TenkaLine(bars: seq<Bar>, w: int): (r: Series)
    requires w >= 1
    ensures |r| == |bars|
    ensures forall t :: 0 <= t < |bars| ==> (r[t].Some? <==> t >= w - 1)
  {
    MidSeries(RollingMax(Highs(bars), w), RollingMin(Lows(bars), w))
  }

  /** `kijun_line(w)`: the same computation as the tenka line; only its default window differs. */
  function KijunLine(bars: seq<Bar>, w: int): (r: Series)
    requires w >= 1
    ensures r == TenkaLine(bars, w)
  {
    TenkaLine(bars, w)
  }

  /** `lead_span_a(shift)`: the average of the default tenka and kijun lines, shifted forward. */
  function LeadSpanA(bars: seq<Bar>, shift: int): (r: Series)
    ensures |r| == |bars|
    ensures forall t :: 0 <= t < |bars| ==> (r[t].Some? <==> shift + KIJUN_WINDOW - 1 <= t < |bars| + shift)
  {
    Shift(MidSeries(TenkaLine(bars, TENKA_WINDOW), KijunLine(bars, KIJUN_WINDOW)), shift)
  }

  /** `lead_span_b(w, shift)`: the w-bar high/low midpoint, shifted forward. */
  function LeadSpanB(bars: seq<Bar>, w: int, shift: int): (r: Series)
    requires w >= 1
    ensures |r| == |bars|
    ensures forall t :: 0 <= t < |bars| ==> (r[t].Some? <==> shift + w - 1 <= t < |bars| + shift)
  {
    Shift(MidSeries(RollingMax(Highs(bars), w), RollingMin(Lows(bars), w)), shift)
  }

  /** `lagging_span(shift)`: the close shifted back by shift bars. */
  function LaggingSpan(bars: seq<Bar>, shift: int): (r: Series)
    ensures |r| == |bars|
    ensures forall t :: 0 <= t < |bars| ==> r[t] == if 0 <= t + shift < |bars| then Some(bars[t + shift].close) else None
  {
    Shift(Defined(Closes(bars)), -shift)
  }

  /** The tenka value at t is the midpoint of the window's extremes; with well-formed
      ranges it lies between the window's lowest low and highest high. */
  lemma TenkaValue(bars: seq<Bar>, w: int, t: int)
    requires w >= 1 && w - 1 <= t < |bars|
    ensures TenkaLine(bars, w)[t]
         == Some((Max(Window(Highs(bars), w, t)) + Min(Window(Lows(bars), w, t))) / 2.0)
    ensures (forall i :: t - w + 1 <= i <= t ==> bars[i].low <= bars[i].high) ==>
              Min(Window(Lows(bars), w, t)) <= TenkaLine(bars, w)[t].value <= Max(Window(Highs(bars), w, t))
  {
    var hs, ls := Window(Highs(bars), w, t), Window(Lows(bars), w, t);
    if forall i :: t - w + 1 <= i <= t ==> bars[i].low <= bars[i].high {
      assert ls[w - 1] == bars[t].low <= bars[t].high == hs[w - 1];
      assert Min(ls) <= ls[w - 1] && hs[w - 1] <= Max(hs);
    }
  }

  /** Leading span A at t is the tenka/kijun average at t - shift. With the default
      windows and displacement it is undefined before index 51. */
  lemma LeadSpanAAt(bars: seq<Bar>, shift: int, t: int)
    requires 0 <= t < |bars|
    ensures LeadSpanA(bars, shift)[t]
         == if 0 <= t - shift < |bars|
            then Mid(TenkaLine(bars, TENKA_WINDOW)[t - shift], KijunLine(bars, KIJUN_WINDOW)[t - shift])
            else None
    ensures LeadSpanA(bars, shift)[t].Some? <==> shift + KIJUN_WINDOW - 1 <= t && t - shift < |bars|
    ensures shift == DISPLACEMENT ==> (LeadSpanA(bars, shift)[t].Some? <==> t >= 51)
  {
  }

  /** Leading span B at t is the w-bar midpoint at t - shift; with the defaults it is
      first defined at index 77. */
  lemma LeadSpanBAt(bars: seq<Bar>, w: int, shift: int, t: int)
    requires w >= 1 && 0 <= t < |bars|
    ensures LeadSpanB(bars, w, shift)[t]
         == if 0 <= t - shift < |bars| then TenkaLine(bars, w)[t - shift] else None
    ensures LeadSpanB(bars, w, shift)[t].Some? <==> shift + w - 1 <= t && t - shift < |bars|
    ensures w == SPAN_B_WINDOW && shift == DISPLACEMENT ==> (LeadSpanB(bars, w, shift)[t].Some? <==> t >= 77)
  {
  }

  /** The lagging span at t is the close at t + shift; the last shift positions are undefined. */
  lemma LaggingSpanAt(bars: seq<Bar>, shift: int, t: int)
    requires shift >= 0 && 0 <= t < |bars|
    ensures LaggingSpan(bars, shift)[t] == if t + shift < |bars| then Some(bars[t + shift].close) else None
  {
  }

  /** One row of the table `update_ichimoku_df` builds. */
  datatype IchimokuRow = IchimokuRow(
    tenka: Option<real>,
    kijun: Option<real>,
    leadSpanA: Option<real>,
    leadSpanB: Option<real>,
    laggingSpan: Option<real>)

  /** The five default-parameter columns, one row per bar. */
  function IchimokuTable(bars: seq<Bar>): (table: seq<IchimokuRow>)
    ensures |table| == |bars|
    ensures forall t :: 0 <= t < |bars| ==>
      table[t] == IchimokuRow(TenkaLine(bars, TENKA_WINDOW)[t], KijunLine(bars, KIJUN_WINDOW)[t],
                              LeadSpanA(bars, DISPLACEMENT)[t], LeadSpanB(bars, SPAN_B_WINDOW, DISPLACEMENT)[t],
                              LaggingSpan(bars, DISPLACEMENT)[t])
  {
    var tenka, kijun := TenkaLine(bars, TENKA_WINDOW), KijunLine(bars, KIJUN_WINDOW);
    var spanA, spanB := LeadSpanA(bars, DISPLACEMENT), LeadSpanB(bars, SPAN_B_WINDOW, DISPLACEMENT);
    var lagging := LaggingSpan(bars, DISPLACEMENT);
    seq(|bars|, t requires 0 <= t < |bars| => IchimokuRow(tenka[t], kijun[t], spanA[t], spanB[t], lagging[t]))
  }

  /** The object main.py keeps across pairs: the last bar series it was given and,
      once updated, the table computed from it. */
  class Ichimoku {
    var pairDf: seq<Bar>
    var ichimokuDf: Option<seq<IchimokuRow>>

    constructor (pairDf: seq<Bar>)
      ensures this.pairDf == pairDf && ichimokuDf == None
    {
      this.pairDf := pairDf;
      ichimokuDf := None;
    }

    /** Stores the new series, builds the table from it, keeps it and returns it. */
    method UpdateIchimokuDf(pairDf: seq<Bar>) returns (table: seq<IchimokuRow>)
      modifies this
      ensures this.pairDf == pairDf
      ensures ichimokuDf == Some(table)
      ensures table == IchimokuTable(pairDf) && |table| == |pairDf|
    {
      this.pairDf := pairDf;
      table := IchimokuTable(this.pairDf);
      ichimokuDf := Some(table);
    }
  }
}
