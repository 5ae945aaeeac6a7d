/** collect_keywords_cloud.py: max-normalised frequency over the grouping of the
    crawler's keywords, the plain recent-over-prior trend ratio fetched by a pool
    of workers, and the ranking of their sums. */
module CollectKeywordsCloud {
  import opened Text
  import opened Grouping
  import opened Frequency
  import opened TrendFetch
  import opened Ranking
  import opened Scoring

  /** The default of `max_keywords`. */
  const DefaultMaxKeywords := 15

  /** The trend scores `calculator` asks for: those of the frequency keys, in the
      frequency dictionary's order. */
  function CloudTrends(keywords: seq<string>, api: TrendApi): map<string, real> {
    GuardedTrends(api, FrequencyScores(keywords).keys)
  }

  /** What `calculator` returns for the crawler's keywords. */
  function CloudRanked(keywords: seq<string>, api: TrendApi, maxKeywords: int): seq<Row> {
    var freq := FrequencyScores(keywords);
    Top(ScoredRows(freq.entries, CloudTrends(keywords, api), freq.keys), TotalOf, maxKeywords)
  }

  /** `calculator`: frequency scores, then the trend scores of their keys, one row
      per frequency key, sorted by total and cut to `max_keywords`. */
  method Calculator(keywords: seq<string>, api: TrendApi, maxKeywords: int := DefaultMaxKeywords)
    returns (rows: seq<Row>)
    ensures rows == CloudRanked(keywords, api, maxKeywords)
  {
    var frequencyScores := FrequencyScore(keywords);
    var trendScores := CalculateTrendScoresPooled(api, frequencyScores.keys);
    var scores := ScoreRows(frequencyScores.entries, trendScores, frequencyScores.keys);
    rows := Top(scores, TotalOf, maxKeywords);
  }

  /** A key of the grouping is the key of one of the keywords: more than one
      character, letters and Hangul syllables only, so no whitespace. */
  lemma GroupKeyIsPlain(kws: seq<string>, k: string)
    requires k in Groups(kws).entries
    ensures |k| > 1 && NoSpace(k)
    ensures exists kw :: kw in kws && Normalize(kw) == k
  {
    GroupsContents(kws);
    MembersMeaning(kws, k);
    var kw := Members(kws, k)[0];
    assert kw in Members(kws, k);
    NormalizeKeepsExactlyKeyChars(kw);
    forall i | 0 <= i < |k|
      ensures !IsSpace(k[i])
    {
      assert IsKeyChar(k[i]);
    }
  }

  /** The ranked rows: at most `max_keywords` of them, by non-increasing total;
      each keyword is the key of some crawled keyword, its frequency score lies in
      (0, 1], its trend score is the service's score for it (0 without one), and
      its total is their sum. That rows of equal total keep the frequency order is
      `Scoring.TopScoredMeaning`. */
  lemma CloudRankedMeaning(keywords: seq<string>, api: TrendApi, maxKeywords: int)
    ensures var rows := CloudRanked(keywords, api, maxKeywords);
      && (maxKeywords >= 0 ==> |rows| <= maxKeywords)
      && NonIncreasing(rows, TotalOf)
      && forall row :: row in rows ==>
        && row.keyword in Groups(keywords).entries
        && (exists kw :: kw in keywords && Normalize(kw) == row.keyword)
        && 0.0 < row.frequency <= 1.0
        && row.trend == Get0(CloudTrends(keywords, api), row.keyword)
        && row.total == row.frequency + row.trend
  {
    var freq := FrequencyScores(keywords);
    var trends := CloudTrends(keywords, api);
    var rows := CloudRanked(keywords, api, maxKeywords);
    TopScoredMeaning(freq.entries, trends, freq.keys, maxKeywords);
    FrequencyScoresMeaning(keywords);
    forall row | row in rows
      ensures row.keyword in Groups(keywords).entries
      ensures exists kw :: kw in keywords && Normalize(kw) == row.keyword
      ensures 0.0 < row.frequency <= 1.0
    {
      assert row.keyword in freq.entries;
      GroupKeyIsPlain(keywords, row.keyword);
    }
  }

  /** With a service whose titles are group names, a key longer than 19 characters
      never has a trend score: it ranks on its frequency score alone. */
  lemma LongKeyRanksOnFrequency(keywords: seq<string>, api: TrendApi, maxKeywords: int, row: Row)
    requires TitlesAreGroupNames(api)
    requires row in CloudRanked(keywords, api, maxKeywords) && |row.keyword| > GroupNameLimit
    ensures row.trend == 0.0 && row.total == row.frequency
  {
    var freq := FrequencyScores(keywords);
    TopScoredMeaning(freq.entries, CloudTrends(keywords, api), freq.keys, maxKeywords);
    LongKeywordHasNoTrend(api, freq.keys, row.keyword);
  }

  /** With a service that answers every group, a key of at most 19 characters
      always has a trend score from the service. */
  lemma ShortKeyHasTrend(keywords: seq<string>, api: TrendApi, maxKeywords: int, row: Row)
    requires AnswersEveryGroup(api)
    requires row in CloudRanked(keywords, api, maxKeywords) && |row.keyword| <= GroupNameLimit
    ensures row.keyword in CloudTrends(keywords, api)
    ensures row.trend == CloudTrends(keywords, api)[row.keyword]
  {
    var freq := FrequencyScores(keywords);
    TopScoredMeaning(freq.entries, CloudTrends(keywords, api), freq.keys, maxKeywords);
    FrequencyScoresMeaning(keywords);
    assert row.keyword in freq.entries;
    GroupKeyIsPlain(keywords, row.keyword);
    PlainKeywordHasTrend(api, freq.keys, row.keyword);
  }
}
