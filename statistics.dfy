/**
 * The raw statistics of the trimmed series: `max()` and `sum()/len()` of each
 * channel, over exact reals (the two-decimal rounding is not modelled).
 */
module Statistics {
  import opened Wrappers
  import opened Errors

  /** Python's `sum()`, adding left to right. */
  function Sum(s: seq<real>): real
  {
    if |s| == 0 then 0.0 else Sum(s[..|s| - 1]) + s[|s| - 1]
  }

  /** Summing a channel in two pieces gives the sum of the whole. */
  lemma {:induction false} SumConcat(a: seq<real>, b: seq<real>)
    ensures Sum(a + b) == Sum(a) + Sum(b)
    decreases |b|
  {
    if |b| == 0 {
      assert a + b == a;
    } else {
      var ab := a + b;
      assert ab[..|ab| - 1] == a + b[..|b| - 1];
      assert ab[|ab| - 1] == b[|b| - 1];
      SumConcat(a, b[..|b| - 1]);
    }
  }

  /** Python's `max()` on a non-empty list: a value of the list that no value exceeds. */
  function Max(s: seq<real>): (m: real)
    requires |s| > 0
    ensures m in s
    ensures forall i | 0 <= i < |s| :: s[i] <= m
  {
    if |s| == 1 then s[0]
    else
      var m := Max(s[..|s| - 1]);
      assert s == s[..|s| - 1] + [s[|s| - 1]];
      if s[|s| - 1] > m then s[|s| - 1] else m
  }

  /** `sum(s) / len(s)`. */
  function Mean(s: seq<real>): real
    requires |s| > 0
  {
    Sum(s) / (|s| as real)
  }

  /** A channel whose every frame is at most `bound` sums to at most its length times `bound`. */
  lemma {:induction false} SumAtMostLengthTimesBound(s: seq<real>, bound: real)
    requires forall i | 0 <= i < |s| :: s[i] <= bound
    ensures Sum(s) <= (|s| as real) * bound
  {
    if |s| > 0 {
      var k := |s| - 1;
      SumAtMostLengthTimesBound(s[..k], bound);
      assert ((k + 1) as real) * bound == (k as real) * bound + bound;
    }
  }

  /** The mean of a non-empty channel never exceeds its maximum. */
  lemma MeanAtMostMax(s: seq<real>)
    requires |s| > 0
    ensures Mean(s) <= Max(s)
  {
    var m := Max(s);
    MeanAtMostBound(s, m);
  }

  /** A non-empty channel whose every frame is at most `bound` has a mean at most `bound`. */
  lemma MeanAtMostBound(s: seq<real>, bound: real)
    requires |s| > 0
    requires forall i | 0 <= i < |s| :: s[i] <= bound
    ensures Mean(s) <= bound
  {
    var total, n := Sum(s), |s| as real;
    SumAtMostLengthTimesBound(s, bound);
    assert total <= n * bound;
    QuotientAtMost(total, n, bound);
    assert Mean(s) == total / n;
  }

  lemma QuotientAtMost(x: real, n: real, bound: real)
    requires n > 0.0 && x <= n * bound
    ensures x / n <= bound
  {
  }

  /** A channel of non-negative values has a non-negative sum. */
  lemma {:induction false} SumNonNegative(s: seq<real>)
    requires forall i | 0 <= i < |s| :: s[i] >= 0.0
    ensures Sum(s) >= 0.0
  {
    if |s| > 0 {
      SumNonNegative(s[..|s| - 1]);
    }
  }

  /** The four raw values of the legend: maxCLL, maxFALL, avgCLL, avgFALL. */
  datatype RawStats = RawStats(maxCll: real, maxFall: real, avgCll: real, avgFall: real)

  /**
   * The raw statistics of the two trimmed channels, in the order the source
   * computes them: an empty channel makes the first `max()` that meets it fail.
   */
  function RawStatistics(cll: seq<real>, fall: seq<real>): (r: Result<RawStats, PlotError>)
    ensures r.Success? <==> |cll| > 0 && |fall| > 0
    ensures r.Failure? ==> r.error == EmptySeries
  {
    if |cll| == 0 || |fall| == 0 then Failure(EmptySeries)
    else Success(RawStats(Max(cll), Max(fall), Mean(cll), Mean(fall)))
  }

  /**
   * For non-empty channels: each maximum is a value of its channel that no
   * frame exceeds, each mean lies between 0 and that maximum when the
   * channel is non-negative, and the mean never exceeds the maximum.
   */
  lemma RawStatisticsBounds(cll: seq<real>, fall: seq<real>)
    requires |cll| > 0 && |fall| > 0
    ensures var st := RawStatistics(cll, fall).value;
            && st.maxCll in cll && st.maxFall in fall
            && (forall i | 0 <= i < |cll| :: cll[i] <= st.maxCll)
            && (forall i | 0 <= i < |fall| :: fall[i] <= st.maxFall)
            && st.avgCll <= st.maxCll && st.avgFall <= st.maxFall
            && ((forall i | 0 <= i < |cll| :: cll[i] >= 0.0) ==> st.avgCll >= 0.0)
            && ((forall i | 0 <= i < |fall| :: fall[i] >= 0.0) ==> st.avgFall >= 0.0)
  {
    MeanAtMostMax(cll);
    MeanAtMostMax(fall);
    if forall i | 0 <= i < |cll| :: cll[i] >= 0.0 {
      SumNonNegative(cll);
    }
    if forall i | 0 <= i < |fall| :: fall[i] >= 0.0 {
      SumNonNegative(fall);
    }
  }
}
