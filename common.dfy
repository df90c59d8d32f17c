/** Shared vocabulary: price bars, series with explicit undefined positions,
    the failure that pandas positional indexing raises, and the comparison
    semantics that undefined (NaN) values have in the rules. */
module Common {

  datatype Option<+T> = None | Some(value: T)

  /** The only failure the model keeps: `iloc` asked for a position that does not exist. */
  datatype Failure = IndexError

  datatype Result<+T> = Ok(value: T) | Err(error: Failure)

  /** One candlestick of the bar series. */
  datatype Bar = Bar(timestamp: int, open: real, high: real, low: real, close: real)

  /** A bar whose close lies inside its own high/low range. */
  predicate WellFormed(b: Bar) {
    b.low <= b.close <= b.high
  }

  /** A series aligned with the bars; `None` marks a position that is not defined (pandas NaN). */
  type Series = seq<Option<real>>

  function Highs(bars: seq<Bar>): (r: seq<real>)
    ensures |r| == |bars| && forall t :: 0 <= t < |bars| ==> r[t] == bars[t].high
  {
    seq(|bars|, t requires 0 <= t < |bars| => bars[t].high)
  }

  function Lows(bars: seq<Bar>): (r: seq<real>)
    ensures |r| == |bars| && forall t :: 0 <= t < |bars| ==> r[t] == bars[t].low
  {
    seq(|bars|, t requires 0 <= t < |bars| => bars[t].low)
  }

  function Closes(bars: seq<Bar>): (r: seq<real>)
    ensures |r| == |bars| && forall t :: 0 <= t < |bars| ==> r[t] == bars[t].close
  {
    seq(|bars|, t requires 0 <= t < |bars| => bars[t].close)
  }

  /** A series defined everywhere. */
  function Defined(xs: seq<real>): (r: Series)
    ensures |r| == |xs| && forall t :: 0 <= t < |xs| ==> r[t] == Some(xs[t])
  {
    seq(|xs|, t requires 0 <= t < |xs| => Some(xs[t]))
  }

  /** `a > b` on floats: false as soon as either side is NaN. */
  predicate Gt(a: Option<real>, b: Option<real>) {
    a.Some? && b.Some? && a.value > b.value
  }

  /** `a < b` on floats: false as soon as either side is NaN. */
  predicate Lt(a: Option<real>, b: Option<real>) {
    Gt(b, a)
  }

  /** Sum of two floats; NaN when either is. */
  function Add(a: Option<real>, b: Option<real>): Option<real> {
    if a.Some? && b.Some? then Some(a.value + b.value) else None
  }

  /** Difference of two floats; NaN when either is. */
  function Sub(a: Option<real>, b: Option<real>): Option<real> {
    if a.Some? && b.Some? then Some(a.value - b.value) else None
  }

  /** `v * k` on a float that may be NaN. */
  function Scale(v: Option<real>, k: real): Option<real> {
    if v.Some? then Some(v.value * k) else None
  }

  /** `(a + b) / 2` on floats. */
  function Mid(a: Option<real>, b: Option<real>): Option<real> {
    if a.Some? && b.Some? then Some((a.value + b.value) / 2.0) else None
  }

  /** Element-wise `(a + b) / 2` of two aligned series. */
  function MidSeries(a: Series, b: Series): (r: Series)
    requires |a| == |b|
    ensures |r| == |a|
  {
    seq(|a|, t requires 0 <= t < |a| => Mid(a[t], b[t]))
  }

  /** pandas `shift(k)`: position t takes the value at t - k, undefined where that is outside the series. */
  function Shift(s: Series, k: int): (r: Series)
    ensures |r| == |s|
  {
    seq(|s|, t requires 0 <= t < |s| => if 0 <= t - k < |s| then s[t - k] else None)
  }

  /** Python's slice `s[-n:]`, for any integer n (n = 0 keeps the whole sequence,
      a negative n drops the first -n elements). */
  function PyTail<T>(s: seq<T>, n: int): (r: seq<T>)
    ensures |r| <= |s| && r == s[|s| - |r|..]
    ensures n > 0 ==> |r| == if n < |s| then n else |s|
    ensures n == 0 ==> r == s
    ensures n < 0 ==> |r| == if |s| + n > 0 then |s| + n else 0
  {
    var start := if n > 0 then (if n < |s| then |s| - n else 0)
                 else (if -n < |s| then -n else |s|);
    s[start..]
  }
}
