/** Sums, extremes, means and variances of finite sequences of reals:
    the statistics pandas and NumPy compute over a window or a list. */
module Stats {

  /** The sum of f over the elements of s, accumulated from the first to the last. */
  function SumBy<T>(s: seq<T>, f: T -> real): real
    decreases |s|
  {
    if |s| == 0 then 0.0 else SumBy(s[..|s| - 1], f) + f(s[|s| - 1])
  }

  function Id(x: real): real { x }

  function Sum(xs: seq<real>): real {
    SumBy(xs, Id)
  }

  /** Arithmetic mean, as `rolling(w).mean()` computes it over a full window. */
  function Mean(xs: seq<real>): real
    requires |xs| > 0
  {
    Sum(xs) / |xs| as real
  }

  /** Largest element, as `rolling(w).max()` computes it over a full window. */
  function Max(xs: seq<real>): (m: real)
    requires |xs| > 0
    ensures m in xs
    ensures forall i :: 0 <= i < |xs| ==> xs[i] <= m
  {
    if |xs| == 1 then xs[0]
    else
      var m' := Max(xs[..|xs| - 1]);
      if xs[|xs| - 1] > m' then xs[|xs| - 1] else m'
  }

  /** Smallest element, as `rolling(w).min()` computes it over a full window. */
  function Min(xs: seq<real>): (m: real)
    requires |xs| > 0
    ensures m in xs
    ensures forall i :: 0 <= i < |xs| ==> m <= xs[i]
  {
    if |xs| == 1 then xs[0]
    else
      var m' := Min(xs[..|xs| - 1]);
      if xs[|xs| - 1] < m' then xs[|xs| - 1] else m'
  }

  /** The squared distance from m. */
  function SqDev(m: real): real -> real {
    x => (x - m) * (x - m)
  }

  /** Sample variance (divisor n - 1), as pandas' `rolling(w).std()` squares it. */
  function SampleVariance(xs: seq<real>): real
    requires |xs| >= 2
  {
    SumBy(xs, SqDev(Mean(xs))) / (|xs| - 1) as real
  }

  lemma {:induction false} SumByAppend<T>(a: seq<T>, b: seq<T>, f: T -> real)
    ensures SumBy(a + b, f) == SumBy(a, f) + SumBy(b, f)
    decreases |b|
  {
    if |b| == 0 {
      assert a + b == a;
    } else {
      assert (a + b)[..|a + b| - 1] == a + b[..|b| - 1];
      SumByAppend(a, b[..|b| - 1], f);
    }
  }

  /** Every term between lo and hi puts the sum between n·lo and n·hi. */
  lemma {:induction false} SumByBounds<T>(s: seq<T>, f: T -> real, lo: real, hi: real)
    requires forall i :: 0 <= i < |s| ==> lo <= f(s[i]) <= hi
    ensures |s| as real * lo <= SumBy(s, f) <= |s| as real * hi
    decreases |s|
  {
    if |s| > 0 {
      SumByBounds(s[..|s| - 1], f, lo, hi);
      assert (|s| - 1) as real * lo + lo == |s| as real * lo;
      assert (|s| - 1) as real * hi + hi == |s| as real * hi;
    }
  }

  /** Terms bounded in absolute value by the terms of g give a sum bounded by the sum of g. */
  lemma {:induction false} SumByDominated<T>(s: seq<T>, f: T -> real, g: T -> real)
    requires forall i :: 0 <= i < |s| ==> -g(s[i]) <= f(s[i]) <= g(s[i])
    ensures -SumBy(s, g) <= SumBy(s, f) <= SumBy(s, g)
    decreases |s|
  {
    if |s| > 0 {
      SumByDominated(s[..|s| - 1], f, g);
    }
  }

  /** A sum does not depend on the order of its terms. */
  lemma {:induction false} SumByPermutation<T>(s: seq<T>, t: seq<T>, f: T -> real)
    requires multiset(s) == multiset(t)
    ensures SumBy(s, f) == SumBy(t, f)
    decreases |s|
  {
    if |s| == 0 {
      assert |t| == |multiset(t)| == 0;
    } else {
      var x := s[|s| - 1];
      var s' := s[..|s| - 1];
      assert s == s' + [x];
      assert x in multiset(t);
      var j :| 0 <= j < |t| && t[j] == x;
      var t' := t[..j] + t[j + 1..];
      assert t == t[..j] + [x] + t[j + 1..];
      assert multiset(t') == multiset(t) - multiset{x};
      assert multiset(s') == multiset(s) - multiset{x};
      SumByPermutation(s', t', f);
      SumByAppend(t[..j] + [x], t[j + 1..], f);
      SumByAppend(t[..j], [x], f);
      SumByAppend(t[..j], t[j + 1..], f);
      assert SumBy([x], f) == f(x) by {
        assert [x][..0] == [];
      }
    }
  }

  lemma MeanBetween(xs: seq<real>, lo: real, hi: real)
    requires |xs| > 0
    requires forall i :: 0 <= i < |xs| ==> lo <= xs[i] <= hi
    ensures lo <= Mean(xs) <= hi
  {
    SumByBounds(xs, Id, lo, hi);
    var n := |xs| as real;
    assert n * lo <= Sum(xs) <= n * hi;
    assert Sum(xs) / n >= lo by {
      assert Sum(xs) / n * n == Sum(xs);
    }
    assert Sum(xs) / n <= hi by {
      assert Sum(xs) / n * n == Sum(xs);
    }
  }

  /** Non-negative values, one of them positive, have a positive mean. */
  lemma MeanPositive(xs: seq<real>, k: int)
    requires 0 <= k < |xs|
    requires forall i :: 0 <= i < |xs| ==> xs[i] >= 0.0
    requires xs[k] > 0.0
    ensures Mean(xs) > 0.0
  {
    assert Sum(xs) > 0.0 by {
      SumPositive(xs, k);
    }
    var n := |xs| as real;
    assert Sum(xs) / n * n == Sum(xs);
  }

  lemma SumPositive(xs: seq<real>, k: int)
    requires 0 <= k < |xs|
    requires forall i :: 0 <= i < |xs| ==> xs[i] >= 0.0
    requires xs[k] > 0.0
    ensures SumBy(xs, Id) > 0.0
  {
    var a, b := xs[..k], xs[k + 1..];
    assert xs == a + [xs[k]] + b;
    SumByAppend(a + [xs[k]], b, Id);
    SumByAppend(a, [xs[k]], Id);
    assert SumBy([xs[k]], Id) == xs[k] by {
      assert [xs[k]][..0] == [];
    }
    SumByNonNegative(a, Id);
    SumByNonNegative(b, Id);
  }

  /** The mean of n copies of c is c. */
  lemma MeanOfConstant(xs: seq<real>, c: real)
    requires |xs| > 0
    requires forall i :: 0 <= i < |xs| ==> xs[i] == c
    ensures Mean(xs) == c
  {
    MeanBetween(xs, c, c);
  }

  /** Non-negative terms have a non-negative sum. */
  lemma {:induction false} SumByNonNegative<T>(s: seq<T>, f: T -> real)
    requires forall i :: 0 <= i < |s| ==> 0.0 <= f(s[i])
    ensures 0.0 <= SumBy(s, f)
    decreases |s|
  {
    if |s| > 0 {
      SumByNonNegative(s[..|s| - 1], f);
    }
  }

  lemma SampleVarianceNonNegative(xs: seq<real>)
    requires |xs| >= 2
    ensures SampleVariance(xs) >= 0.0
  {
    SumByNonNegative(xs, SqDev(Mean(xs)));
  }

  /** A window of equal values has sample variance 0. */
  lemma SampleVarianceOfConstant(xs: seq<real>, c: real)
    requires |xs| >= 2
    requires forall i :: 0 <= i < |xs| ==> xs[i] == c
    ensures SampleVariance(xs) == 0.0
  {
    MeanOfConstant(xs, c);
    SumByBounds(xs, SqDev(Mean(xs)), 0.0, 0.0);
  }
}
