/** What `aggregate_sentiments` computes from the rounded rule scores: the average
    (plain sum over a sum of weights that halves small scores), the confidence
    (1 minus the population variance of the scores and the average), and the
    name-to-value map it returns. A NaN score propagates into both. */
module Aggregation {
  import opened Common
  import opened Stats
  import opened Rounding

  /** One rule's name and its rounded score. */
  datatype Entry = Entry(name: string, score: Option<real>)

  /** Weight of a score in the denominator: a half for a score strictly between -0.1 and
      0.1, a whole otherwise (a NaN score fails the test and weighs 1). */
  function Weight(v: Option<real>): (w: real)
    ensures w == 0.5 || w == 1.0
  {
    if v.Some? && -0.1 < v.value < 0.1 then 0.5 else 1.0
  }

  /** A score's contribution to the numerator; only read where no score is NaN. */
  function Value0(v: Option<real>): real {
    if v.Some? then v.value else 0.0
  }

  function TotalWeight(vs: seq<Option<real>>): real {
    SumBy(vs, Weight)
  }

  /** The weight sum lies between half the number of scores and that number. */
  lemma {:induction false} TotalWeightBounds(vs: seq<Option<real>>)
    ensures |vs| as real / 2.0 <= TotalWeight(vs) <= |vs| as real
  {
    forall i | 0 <= i < |vs| ensures 0.5 <= Weight(vs[i]) <= 1.0 {
    }
    SumByBounds(vs, Weight, 0.5, 1.0);
  }

  /** The plain sum of the scores, NaN as soon as one of them is. */
  function Total(vs: seq<Option<real>>): (r: Option<real>)
    ensures r.None? <==> None in vs
  {
    if None in vs then None else Some(SumBy(vs, Value0))
  }

  /** `round(total_sum / total_weight, 2)`. */
  function AverageOf(totalSum: Option<real>, totalWeight: real): Option<real>
    requires totalWeight > 0.0
  {
    if totalSum.Some? then Some(Round2(totalSum.value / totalWeight)) else None
  }

  /** The average of a list of scores: NaN as soon as one score is NaN. */
  function Average(vs: seq<Option<real>>): (r: Option<real>)
    requires |vs| > 0
    ensures r.None? <==> None in vs
  {
    TotalWeightBounds(vs);
    AverageOf(Total(vs), TotalWeight(vs))
  }

  /** The squared distance of a (defined) score from m. */
  function SqDevOf(m: real): Option<real> -> real {
    v => (Value0(v) - m) * (Value0(v) - m)
  }

  /** NumPy's `var`: the population variance (divisor n); NaN as soon as one value is. */
  function Variance(vs: seq<Option<real>>): (r: Option<real>)
    requires |vs| > 0
    ensures r.None? <==> None in vs
    ensures r.Some? ==> r.value >= 0.0
  {
    if None in vs then None
    else
      var mean := SumBy(vs, Value0) / |vs| as real;
      SumByNonNegative(vs, SqDevOf(mean));
      Some(SumBy(vs, SqDevOf(mean)) / |vs| as real)
  }

  /** `round(1 - var(values), 2)`. */
  function ConfidenceOf(values: seq<Option<real>>): (r: Option<real>)
    requires |values| > 0
    ensures r.None? <==> None in values
  {
    var v := Variance(values);
    if v.Some? then Some(Round2(1.0 - v.value)) else None
  }

  /** The confidence of a list of scores: computed over the scores and their average. */
  function Confidence(vs: seq<Option<real>>): (r: Option<real>)
    requires |vs| > 0
    ensures r.None? <==> None in vs
  {
    assert None in vs + [Average(vs)] <==> None in vs;
    ConfidenceOf(vs + [Average(vs)])
  }

  /** The scores of the entries, in order. */
  function Scores(entries: seq<Entry>): (r: seq<Option<real>>)
    ensures |r| == |entries| && forall i :: 0 <= i < |entries| ==> r[i] == entries[i].score
  {
    seq(|entries|, i requires 0 <= i < |entries| => entries[i].score)
  }

  /** The dictionary after inserting each entry in turn (a later name overwrites). */
  function Insertions(entries: seq<Entry>): map<string, Option<real>>
    decreases |entries|
  {
    if |entries| == 0 then map[]
    else Insertions(entries[..|entries| - 1])[entries[|entries| - 1].name := entries[|entries| - 1].score]
  }

  /** The returned dictionary: every rule's score, then "average", then "confidence". */
  function Sentiments(entries: seq<Entry>): (r: map<string, Option<real>>)
    requires |entries| > 0
    ensures r.Keys == Names(entries) + {"average", "confidence"}
    ensures r["average"].None? <==> exists i :: 0 <= i < |entries| && entries[i].score.None?
    ensures r["confidence"].None? <==> r["average"].None?
  {
    var vs := Scores(entries);
    InsertionsContents(entries);
    assert None in vs <==> exists i :: 0 <= i < |entries| && entries[i].score.None?;
    Insertions(entries)["average" := Average(vs)]["confidence" := Confidence(vs)]
  }

  predicate DistinctNames(entries: seq<Entry>) {
    forall i, j :: 0 <= i < j < |entries| ==> entries[i].name != entries[j].name
  }

  function Names(entries: seq<Entry>): set<string> {
    set e | e in entries :: e.name
  }

  /** The dictionary holds exactly the inserted names, each with its own score when the
      names are distinct. */
  lemma {:induction false} InsertionsContents(entries: seq<Entry>)
    ensures Insertions(entries).Keys == Names(entries)
    ensures DistinctNames(entries) ==>
              forall i :: 0 <= i < |entries| ==> Insertions(entries)[entries[i].name] == entries[i].score
    decreases |entries|
  {
    if |entries| > 0 {
      var init, last := entries[..|entries| - 1], entries[|entries| - 1];
      InsertionsContents(init);
      assert entries == init + [last];
      assert Names(entries) == Names(init) + {last.name};
    }
  }

  /** A small score is halved in the weight but not in the sum: n equal defined scores c
      with |c| < 0.1 average to round(2c) rather than to c. */
  lemma SmallScoresCountDouble(vs: seq<Option<real>>, c: real)
    requires |vs| > 0
    requires -0.1 < c < 0.1
    requires forall i :: 0 <= i < |vs| ==> vs[i] == Some(c)
    ensures Average(vs) == Some(Round2(2.0 * c))
  {
    var n := |vs| as real;
    forall i | 0 <= i < |vs| ensures Value0(vs[i]) == c && Weight(vs[i]) == 0.5 {
    }
    SumByBounds(vs, Value0, c, c);
    SumByBounds(vs, Weight, 0.5, 0.5);
    assert None !in vs by {
      forall i | 0 <= i < |vs| ensures vs[i] != None {
      }
    }
    var total, weight := SumBy(vs, Value0), TotalWeight(vs);
    assert total == n * c && weight == n * 0.5;
    assert (2.0 * c) * weight == total;
    Quotient(total, weight, 2.0 * c);
  }

  lemma Quotient(s: real, w: real, q: real)
    requires w != 0.0 && q * w == s
    ensures s / w == q
  {
  }

  lemma QuotientBounded(s: real, w: real)
    requires w > 0.0 && -w <= s <= w
    ensures -1.0 <= s / w <= 1.0
  {
    var q := s / w;
    assert q * w == s;
  }

  /** Scores in [-1, 1] give an average in [-1, 1]: each score is bounded by its weight. */
  lemma AverageBounded(vs: seq<Option<real>>)
    requires |vs| > 0
    requires forall i :: 0 <= i < |vs| && vs[i].Some? ==> -1.0 <= vs[i].value <= 1.0
    ensures Average(vs).Some? ==> -1.0 <= Average(vs).value <= 1.0
  {
    if None !in vs {
      forall i | 0 <= i < |vs| ensures -Weight(vs[i]) <= Value0(vs[i]) <= Weight(vs[i]) {
      }
      SumByDominated(vs, Value0, Weight);
      TotalWeightBounds(vs);
      var s, w := SumBy(vs, Value0), TotalWeight(vs);
      QuotientBounded(s, w);
      Round2Within(s / w, -100, 100);
    }
  }

  /** The confidence is never above 1, since a variance is never negative. */
  lemma ConfidenceAtMostOne(vs: seq<Option<real>>)
    requires |vs| > 0
    ensures Confidence(vs).Some? ==> Confidence(vs).value <= 1.0
  {
    var v := Variance(vs + [Average(vs)]);
    if v.Some? {
      Round2Monotone(1.0 - v.value, 1.0);
      Round2Exact(100);
    }
  }

  /** Average and confidence depend only on the multiset of scores, not on their order. */
  lemma AggregateOrderIndependent(vs: seq<Option<real>>, ws: seq<Option<real>>)
    requires |vs| > 0
    requires multiset(vs) == multiset(ws)
    ensures |ws| > 0
    ensures Average(vs) == Average(ws)
    ensures Confidence(vs) == Confidence(ws)
  {
    assert |vs| == |multiset(vs)| == |multiset(ws)| == |ws|;
    assert None in vs <==> None in multiset(vs);
    assert None in ws <==> None in multiset(ws);
    SumByPermutation(vs, ws, Weight);
    SumByPermutation(vs, ws, Value0);
    var a := Average(vs);
    var vs', ws' := vs + [a], ws + [a];
    assert multiset(vs') == multiset(ws');
    assert None in vs' <==> None in ws' by {
      assert None in vs' <==> None in multiset(vs');
      assert None in ws' <==> None in multiset(ws');
    }
    SumByPermutation(vs', ws', Value0);
    var mean := SumBy(vs', Value0) / |vs'| as real;
    SumByPermutation(vs', ws', SqDevOf(mean));
  }

  lemma ScoresAppend(a: seq<Entry>, b: seq<Entry>)
    ensures Scores(a + b) == Scores(a) + Scores(b)
  {
  }

  /** Taking out the entry at j takes its score out of the scores. */
  lemma ScoresRemove(qs: seq<Entry>, j: int)
    requires 0 <= j < |qs|
    ensures multiset(Scores(qs)) == multiset(Scores(qs[..j] + qs[j + 1..])) + multiset{qs[j].score}
  {
    var a, x, b := qs[..j], qs[j], qs[j + 1..];
    assert qs == a + [x] + b;
    ScoresAppend(a + [x], b);
    ScoresAppend(a, [x]);
    ScoresAppend(a, b);
    assert Scores([x]) == [x.score];
  }

  /** Taking out the element at j takes it out of the multiset. */
  lemma RemoveFromMultiset<T>(qs: seq<T>, j: int)
    requires 0 <= j < |qs|
    ensures multiset(qs) == multiset(qs[..j] + qs[j + 1..]) + multiset{qs[j]}
  {
    assert qs == qs[..j] + [qs[j]] + qs[j + 1..];
  }

  lemma {:induction false} ScoresPermutation(ps: seq<Entry>, qs: seq<Entry>)
    requires multiset(ps) == multiset(qs)
    ensures multiset(Scores(ps)) == multiset(Scores(qs))
    decreases |ps|
  {
    if |ps| == 0 {
      assert |qs| == |multiset(qs)| == 0;
    } else {
      var k := |ps| - 1;
      var x, ps' := ps[k], ps[..k] + ps[k + 1..];
      RemoveFromMultiset(ps, k);
      assert x in multiset(qs);
      var j :| 0 <= j < |qs| && qs[j] == x;
      var qs' := qs[..j] + qs[j + 1..];
      RemoveFromMultiset(qs, j);
      assert multiset(ps') == multiset(qs') by {
        assert multiset(ps') == multiset(ps) - multiset{x};
        assert multiset(qs') == multiset(qs) - multiset{x};
      }
      ScoresPermutation(ps', qs');
      ScoresRemove(ps, k);
      ScoresRemove(qs, j);
    }
  }

  lemma NamesOfPermutation(ps: seq<Entry>, qs: seq<Entry>)
    requires multiset(ps) == multiset(qs)
    ensures Names(ps) == Names(qs)
  {
    forall e | e in ps ensures e in qs {
      assert e in multiset(ps);
    }
    forall e | e in qs ensures e in ps {
      assert e in multiset(qs);
    }
  }

  lemma InsertionsAgree(ps: seq<Entry>, qs: seq<Entry>, k: string)
    requires DistinctNames(ps) && DistinctNames(qs)
    requires multiset(ps) == multiset(qs)
    requires k in Insertions(ps)
    ensures k in Insertions(qs) && Insertions(ps)[k] == Insertions(qs)[k]
  {
    InsertionsContents(ps);
    InsertionsContents(qs);
    var e :| e in ps && e.name == k;
    var i :| 0 <= i < |ps| && ps[i] == e;
    assert e in multiset(qs);
    var j :| 0 <= j < |qs| && qs[j] == e;
  }

  /** Inserting entries with distinct names in another order yields the same dictionary. */
  lemma InsertionsOrderIndependent(ps: seq<Entry>, qs: seq<Entry>)
    requires DistinctNames(ps) && DistinctNames(qs)
    requires multiset(ps) == multiset(qs)
    ensures Insertions(ps) == Insertions(qs)
  {
    InsertionsContents(ps);
    InsertionsContents(qs);
    NamesOfPermutation(ps, qs);
    forall k | k in Insertions(ps) ensures Insertions(ps)[k] == Insertions(qs)[k] {
      InsertionsAgree(ps, qs, k);
    }
  }

  /** Running the rules in another order yields the same dictionary. */
  lemma SentimentsOrderIndependent(ps: seq<Entry>, qs: seq<Entry>)
    requires |ps| > 0
    requires DistinctNames(ps) && DistinctNames(qs)
    requires multiset(ps) == multiset(qs)
    ensures |qs| > 0
    ensures Sentiments(ps) == Sentiments(qs)
  {
    assert |ps| == |multiset(ps)| == |multiset(qs)| == |qs|;
    ScoresPermutation(ps, qs);
    AggregateOrderIndependent(Scores(ps), Scores(qs));
    InsertionsOrderIndependent(ps, qs);
  }

  /** The running state of the loop in `aggregate_sentiments`: the sum of the scores,
      the sum of their weights, the dictionary so far and the list of its values. */
  datatype Tally = Tally(totalSum: Option<real>, totalWeight: real,
                         dict: map<string, Option<real>>, values: seq<Option<real>>)

  /** The state after recording the given entries one by one: each adds its score to the
      sum (NaN from the first NaN score on), its weight to the weights, and its name to the
      dictionary. */
  function TallyOf(entries: seq<Entry>): Tally
    decreases |entries|
  {
    if |entries| == 0 then Tally(Some(0.0), 0.0, map[], [])
    else
      var t, e := TallyOf(entries[..|entries| - 1]), entries[|entries| - 1];
      Tally(Add(t.totalSum, e.score), t.totalWeight + Weight(e.score), t.dict[e.name := e.score], t.values + [e.score])
  }

  lemma TallySnoc(entries: seq<Entry>, e: Entry)
    ensures var t := TallyOf(entries);
            TallyOf(entries + [e])
              == Tally(Add(t.totalSum, e.score), t.totalWeight + Weight(e.score), t.dict[e.name := e.score], t.values + [e.score])
  {
    assert (entries + [e])[..|entries|] == entries;
  }

  /** The running state in closed form, field by field: the values are the scores, ... */
  lemma {:induction false} TallyValues(entries: seq<Entry>)
    ensures TallyOf(entries).values == Scores(entries)
    decreases |entries|
  {
    if |entries| > 0 {
      var init := entries[..|entries| - 1];
      TallyValues(init);
      assert Scores(entries) == Scores(init) + [entries[|entries| - 1].score];
    }
  }

  /** ... the dictionary is the insertion of every entry, ... */
  lemma {:induction false} TallyDict(entries: seq<Entry>)
    ensures TallyOf(entries).dict == Insertions(entries)
    decreases |entries|
  {
    if |entries| > 0 {
      TallyDict(entries[..|entries| - 1]);
    }
  }

  /** ... the weight is the weight sum of the scores, ... */
  lemma {:induction false} TallyWeight(entries: seq<Entry>)
    ensures TallyOf(entries).totalWeight == TotalWeight(TallyOf(entries).values)
    decreases |entries|
  {
    if |entries| > 0 {
      var init := entries[..|entries| - 1];
      TallyWeight(init);
      var vs := TallyOf(entries).values;
      assert vs[..|vs| - 1] == TallyOf(init).values;
    }
  }

  /** ... and the sum is the plain sum of the scores unless one of them is NaN. */
  lemma {:induction false} TallySum(entries: seq<Entry>)
    ensures TallyOf(entries).totalSum == Total(TallyOf(entries).values)
    decreases |entries|
  {
    if |entries| > 0 {
      var init := entries[..|entries| - 1];
      TallySum(init);
      var vs, us := TallyOf(entries).values, TallyOf(init).values;
      assert vs == us + [entries[|entries| - 1].score];
      assert vs[..|vs| - 1] == us;
    }
  }

  /** After the loop the running totals give the average, and the dictionary completed
      with the average and the confidence is the returned one. */
  lemma TallySentiments(entries: seq<Entry>)
    requires |entries| > 0
    ensures TallyOf(entries).totalWeight > 0.0
    ensures var t := TallyOf(entries);
            var average := AverageOf(t.totalSum, t.totalWeight);
            t.dict["average" := average]["confidence" := ConfidenceOf(t.values + [average])] == Sentiments(entries)
  {
    TallyValues(entries);
    TallyDict(entries);
    TallyWeight(entries);
    TallySum(entries);
    TotalWeightBounds(Scores(entries));
  }

  /** With distinct names, none of them "average" or "confidence", the returned
      dictionary has one key per entry plus the two summary keys, and each entry's score
      is found under its name. */
  lemma SentimentsLookup(entries: seq<Entry>)
    requires |entries| > 0 && DistinctNames(entries)
    requires forall i :: 0 <= i < |entries| ==> entries[i].name != "average" && entries[i].name != "confidence"
    ensures Sentiments(entries).Keys == Names(entries) + {"average", "confidence"}
    ensures forall i :: 0 <= i < |entries| ==> Sentiments(entries)[entries[i].name] == entries[i].score
  {
    InsertionsContents(entries);
  }
}
