/** The trend ratios computed from one DataLab series (the daily `ratio` values,
    oldest first): `fetch_trend_score` in the three scoring scripts. */
module Trend {
  import opened Text

  function Sum(xs: seq<real>): real {
    if xs == [] then 0.0 else xs[0] + Sum(xs[1..])
  }

  /** `sum(xs) / max(len(xs), 1)`: the mean, and 0 for an empty list. */
  function Average(xs: seq<real>): real {
    Sum(xs) / Max(|xs|, 1) as real
  }

  /** The mean of every point but the last (`previous_avg`). */
  function PriorMean(data: seq<real>): real
    requires |data| >= 1
  {
    Average(data[..|data| - 1])
  }

  /** The last `min(7, len(data))` points (`data[-7:] if len(data) >= 7 else data`). */
  function LastWeek(data: seq<real>): (w: seq<real>)
    ensures |w| == Min(7, |data|)
    ensures w == data[|data| - |w|..]
  {
    if |data| >= 7 then data[|data| - 7..] else data
  }

  /** `x / p if p != 0 else 0`. */
  function GuardedQuotient(x: real, p: real): real {
    if p != 0.0 then x / p else 0.0
  }

  /** The "30일" score: the last point over the mean of the points before it, and 0
      for a series of fewer than two points or a prior mean of 0. */
  function RecentRatio(data: seq<real>): (r: real)
    ensures |data| < 2 ==> r == 0.0
    ensures |data| >= 2 && PriorMean(data) == 0.0 ==> r == 0.0
  {
    if |data| < 2 then 0.0 else GuardedQuotient(data[|data| - 1], PriorMean(data))
  }

  /** The "7일" score: the mean of the last week over the same prior mean, with the
      same two cases giving 0. */
  function WeekRatio(data: seq<real>): (r: real)
    ensures |data| < 2 ==> r == 0.0
    ensures |data| >= 2 && PriorMean(data) == 0.0 ==> r == 0.0
  {
    if |data| < 2 then 0.0 else GuardedQuotient(Average(LastWeek(data)), PriorMean(data))
  }

  /** The pair of scores compare_keywords_cloud.py keeps per keyword. */
  datatype TrendPair = TrendPair(month: real, week: real)

  function PairScore(data: seq<real>): (p: TrendPair)
    ensures p.month == RecentRatio(data) && p.week == WeekRatio(data)
  {
    if |data| < 2 then TrendPair(0.0, 0.0) else TrendPair(RecentRatio(data), WeekRatio(data))
  }

  /** `trend_score_30 * 0.7 + trend_score_7 * 0.3`. */
  /** The weights add up to 1: the blend lies between the two scores, and two equal
      scores blend to themselves. */
  function Blend(p: TrendPair): (r: real)
    ensures p.month == p.week ==> r == p.month
    ensures p.month <= p.week ==> p.month <= r <= p.week
    ensures p.week <= p.month ==> p.week <= r <= p.month
  {
    p.month * 0.7 + p.week * 0.3
  }

  lemma {:induction false} SumConstant(xs: seq<real>, c: real)
    requires forall i :: 0 <= i < |xs| ==> xs[i] == c
    ensures Sum(xs) == |xs| as real * c
  {
    if xs != [] {
      SumConstant(xs[1..], c);
    }
  }

  lemma {:induction false} SumNonNegative(xs: seq<real>)
    requires forall i :: 0 <= i < |xs| ==> xs[i] >= 0.0
    ensures Sum(xs) >= 0.0
  {
    if xs != [] {
      SumNonNegative(xs[1..]);
    }
  }

  lemma AverageConstant(xs: seq<real>, c: real)
    requires |xs| > 0
    requires forall i :: 0 <= i < |xs| ==> xs[i] == c
    ensures Average(xs) == c
  {
    SumConstant(xs, c);
  }

  lemma AverageNonNegative(xs: seq<real>)
    requires forall i :: 0 <= i < |xs| ==> xs[i] >= 0.0
    ensures Average(xs) >= 0.0
  {
    SumNonNegative(xs);
  }

  /** A flat series scores exactly 1 on both measures. */
  lemma SteadySeries(data: seq<real>, c: real)
    requires |data| >= 2 && c != 0.0
    requires forall i :: 0 <= i < |data| ==> data[i] == c
    ensures RecentRatio(data) == 1.0 && WeekRatio(data) == 1.0
  {
    var prior := data[..|data| - 1];
    var week := LastWeek(data);
    AverageConstant(prior, c);
    assert forall i :: 0 <= i < |week| ==> week[i] == data[|data| - |week| + i];
    AverageConstant(week, c);
    SelfQuotient(c);
  }

  lemma SelfQuotient(c: real)
    requires c != 0.0
    ensures c / c == 1.0
  {
  }

  lemma QuotientNonNegative(x: real, p: real)
    requires x >= 0.0 && p > 0.0
    ensures x / p >= 0.0
  {
  }

  /** A series of non-negative points never has a negative score. */
  lemma NonNegativeScores(data: seq<real>)
    requires forall i :: 0 <= i < |data| ==> data[i] >= 0.0
    ensures RecentRatio(data) >= 0.0 && WeekRatio(data) >= 0.0
  {
    if |data| >= 2 {
      var prior := data[..|data| - 1];
      var week := LastWeek(data);
      AverageNonNegative(prior);
      assert forall i :: 0 <= i < |week| ==> week[i] == data[|data| - |week| + i];
      AverageNonNegative(week);
      if PriorMean(data) != 0.0 {
        QuotientNonNegative(data[|data| - 1], PriorMean(data));
        QuotientNonNegative(Average(week), PriorMean(data));
      }
    }
  }

  /** A last point above a positive prior mean scores above 1. */
  lemma RisingSeries(data: seq<real>)
    requires |data| >= 2 && PriorMean(data) > 0.0
    ensures RecentRatio(data) > 1.0 <==> data[|data| - 1] > PriorMean(data)
  {
    QuotientAboveOne(data[|data| - 1], PriorMean(data));
  }

  lemma QuotientAboveOne(x: real, p: real)
    requires p > 0.0
    ensures x / p > 1.0 <==> x > p
  {
    if x > p {
      assert x / p > p / p;
    } else {
      assert x / p <= p / p;
    }
  }

  /** Every point multiplied by `c`. */
  function Scale(c: real, xs: seq<real>): (ys: seq<real>)
    ensures |ys| == |xs|
    ensures forall i :: 0 <= i < |xs| ==> ys[i] == c * xs[i]
  {
    seq(|xs|, i requires 0 <= i < |xs| => c * xs[i])
  }

  lemma ScaleSlice(c: real, xs: seq<real>, a: nat, b: nat)
    requires a <= b <= |xs|
    ensures Scale(c, xs)[a..b] == Scale(c, xs[a..b])
  {
    assert forall i :: 0 <= i < b - a ==> Scale(c, xs)[a..b][i] == Scale(c, xs[a..b])[i];
  }

  lemma {:induction false} SumScale(c: real, xs: seq<real>)
    ensures Sum(Scale(c, xs)) == c * Sum(xs)
  {
    if xs != [] {
      ScaleSlice(c, xs, 1, |xs|);
      assert xs[1..|xs|] == xs[1..];
      SumScale(c, xs[1..]);
      var ys := Scale(c, xs);
      assert ys[1..] == ys[1..|xs|];
      Distribute(c, xs[0], Sum(xs[1..]));
    }
  }

  lemma Distribute(c: real, x: real, y: real)
    ensures c * x + c * y == c * (x + y)
  {
  }

  lemma AverageScale(c: real, xs: seq<real>)
    ensures Average(Scale(c, xs)) == c * Average(xs)
  {
    var n := Max(|xs|, 1) as real;
    var total := Sum(xs);
    SumScale(c, xs);
    assert Average(Scale(c, xs)) == (c * total) / n;
    ScaledQuotient(c, total, n);
    assert Average(xs) == total / n;
  }

  lemma ScaledQuotient(c: real, x: real, n: real)
    requires n > 0.0
    ensures (c * x) / n == c * (x / n)
  {
  }

  /** Scaling commutes with taking the earlier points and the last week. */
  lemma ScaleWindows(c: real, data: seq<real>)
    requires |data| >= 1
    ensures Scale(c, data)[..|data| - 1] == Scale(c, data[..|data| - 1])
    ensures LastWeek(Scale(c, data)) == Scale(c, LastWeek(data))
  {
    var n := |data|;
    ScaleSlice(c, data, 0, n - 1);
    assert Scale(c, data)[..n - 1] == Scale(c, data)[0..n - 1];
    assert data[..n - 1] == data[0..n - 1];
    if n >= 7 {
      ScaleSlice(c, data, n - 7, n);
      assert Scale(c, data)[n - 7..] == Scale(c, data)[n - 7..n];
      assert data[n - 7..] == data[n - 7..n];
    }
  }

  /** Scaling the numerator and a non-zero denominator alike leaves the quotient. */
  lemma GuardedQuotientScale(c: real, x: real, p: real)
    requires c != 0.0
    ensures GuardedQuotient(c * x, c * p) == GuardedQuotient(x, p)
  {
    if p != 0.0 {
      assert c * p != 0.0;
      assert (c * x) / (c * p) == x / p;
    }
  }

  /** The DataLab ratios of a request are relative to the request's largest value,
      so the same series can come back multiplied by any positive factor: both
      scores are unaffected by that factor. */
  lemma ScaleInvariant(c: real, data: seq<real>)
    requires c > 0.0
    ensures RecentRatio(Scale(c, data)) == RecentRatio(data)
    ensures WeekRatio(Scale(c, data)) == WeekRatio(data)
  {
    if |data| >= 2 {
      ScaleWindows(c, data);
      ScaledPriorMean(c, data);
      RecentScale(c, data);
      WeekScale(c, data);
    }
  }

  lemma ScaledPriorMean(c: real, data: seq<real>)
    requires |data| >= 2
    requires Scale(c, data)[..|data| - 1] == Scale(c, data[..|data| - 1])
    ensures PriorMean(Scale(c, data)) == c * PriorMean(data)
  {
    AverageScale(c, data[..|data| - 1]);
  }

  lemma RecentScale(c: real, data: seq<real>)
    requires |data| >= 2 && c != 0.0
    requires PriorMean(Scale(c, data)) == c * PriorMean(data)
    ensures RecentRatio(Scale(c, data)) == RecentRatio(data)
  {
    var last, prior := data[|data| - 1], PriorMean(data);
    assert Scale(c, data)[|data| - 1] == c * last;
    GuardedQuotientScale(c, last, prior);
  }

  lemma WeekScale(c: real, data: seq<real>)
    requires |data| >= 2 && c != 0.0
    requires PriorMean(Scale(c, data)) == c * PriorMean(data)
    requires LastWeek(Scale(c, data)) == Scale(c, LastWeek(data))
    ensures WeekRatio(Scale(c, data)) == WeekRatio(data)
  {
    var week, prior := Average(LastWeek(data)), PriorMean(data);
    AverageScale(c, LastWeek(data));
    GuardedQuotientScale(c, week, prior);
  }
}
