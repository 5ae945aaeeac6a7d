/** The result rows of collect_keywords_cloud.py and compare_keywords.py: for each
    keyword in turn, its frequency score and its trend score, each read with
    `.get(kw, 0)`, and their sum. */
module Scoring {
  import opened Ranking

  /** `scores.get(kw, 0)`. */
  function Get0(scores: map<string, real>, kw: string): real {
    if kw in scores then scores[kw] else 0.0
  }

  function ScoredRow(freq: map<string, real>, trends: map<string, real>, kw: string): Row {
    var f := Get0(freq, kw);
    var t := Get0(trends, kw);
    Row(kw, f, t, f + t)
  }

  /** One row per keyword of `keys`, in that order. */
  function ScoredRows(freq: map<string, real>, trends: map<string, real>, keys: seq<string>): (rows: seq<Row>)
    ensures |rows| == |keys|
  {
    if keys == [] then []
    else ScoredRows(freq, trends, keys[..|keys| - 1]) + [ScoredRow(freq, trends, keys[|keys| - 1])]
  }

  /** Row `i` is the row of key `i`: the key itself, its two scores (0 when
      missing) and their sum. */
  lemma {:induction false} ScoredRowsAt(freq: map<string, real>, trends: map<string, real>, keys: seq<string>)
    ensures forall i :: 0 <= i < |keys| ==> ScoredRows(freq, trends, keys)[i] == ScoredRow(freq, trends, keys[i])
  {
    if keys != [] {
      var pre := keys[..|keys| - 1];
      ScoredRowsAt(freq, trends, pre);
      forall i | 0 <= i < |pre|
        ensures ScoredRows(freq, trends, keys)[i] == ScoredRow(freq, trends, keys[i])
      {
        assert keys[i] == pre[i];
      }
    }
  }

  lemma ScoredRowsStep(freq: map<string, real>, trends: map<string, real>, keys: seq<string>, i: nat)
    requires i < |keys|
    ensures ScoredRows(freq, trends, keys[..i + 1]) == ScoredRows(freq, trends, keys[..i]) + [ScoredRow(freq, trends, keys[i])]
  {
    assert keys[..i + 1][..i] == keys[..i];
  }

  /** The loop `for kw in keys: scores.append({...})`. */
  method ScoreRows(freq: map<string, real>, trends: map<string, real>, keys: seq<string>) returns (scores: seq<Row>)
    ensures scores == ScoredRows(freq, trends, keys)
  {
    scores := [];
    var i := 0;
    while i < |keys|
      invariant 0 <= i <= |keys|
      invariant scores == ScoredRows(freq, trends, keys[..i])
    {
      var kw := keys[i];
      var frequencyScore := Get0(freq, kw);
      var trendScore := Get0(trends, kw);
      var totalScore := frequencyScore + trendScore;
      ScoredRowsStep(freq, trends, keys, i);
      scores := scores + [Row(kw, frequencyScore, trendScore, totalScore)];
      i := i + 1;
    }
    assert keys[..i] == keys;
  }

  /** The ranking of the rows of `keys`: at most `n` of them, by non-increasing
      total; each is the row of one of the keys, with that key's two scores (0 when
      missing) and their sum; rows of equal total keep the order of `keys`. */
  lemma TopScoredMeaning(freq: map<string, real>, trends: map<string, real>, keys: seq<string>, n: int)
    ensures var rows := Top(ScoredRows(freq, trends, keys), TotalOf, n);
      && (n >= 0 ==> |rows| <= n)
      && NonIncreasing(rows, TotalOf)
      && forall row :: row in rows ==>
        && row.keyword in keys
        && row.frequency == Get0(freq, row.keyword)
        && row.trend == Get0(trends, row.keyword)
        && row.total == row.frequency + row.trend
    ensures forall v ::
      WithKey(SortDesc(ScoredRows(freq, trends, keys), TotalOf), TotalOf, v) == WithKey(ScoredRows(freq, trends, keys), TotalOf, v)
  {
    var all := ScoredRows(freq, trends, keys);
    var rows := Top(all, TotalOf, n);
    TopCorrect(all, TotalOf, n);
    SortDescCorrect(all, TotalOf);
    ScoredRowsAt(freq, trends, keys);
    forall row | row in rows
      ensures row.keyword in keys && row == ScoredRow(freq, trends, row.keyword)
    {
      assert row in multiset(rows);
      assert row in all;
      var i :| 0 <= i < |all| && all[i] == row;
    }
  }
}
