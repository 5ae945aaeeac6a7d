/** compare_keywords.py: the keywords both brand-free and trending, their relative
    frequency, the recent-over-prior trend ratio fetched chunk by chunk, and the ten
    best totals. */
module CompareKeywords {
  import opened Text
  import opened Frequency
  import opened TrendFetch
  import opened Ranking
  import opened Scoring

  /** The default of `max_keywords`. */
  const DefaultMaxKeywords := 15

  /** The number of rows returned, `[:10]`. */
  const RowLimit := 10

  /** `list(raw_keywords & keywords_with_trend)`: Python lists a set in an order of
      its own, so the listing is given; it holds every keyword that is both brand-free
      and trending, once. */
  ghost predicate IsIntersectionListing(listing: seq<string>, nobrand: seq<string>, trend: seq<string>) {
    && Distinct(listing)
    && forall k :: k in listing <==> k in nobrand && k in trend
  }

  /** `filtered_keywords`: the first `max_keywords` of the listing. */
  function Filtered(listing: seq<string>, maxKeywords: int): seq<string> {
    PyPrefix(listing, maxKeywords)
  }

  /** What `calculator` returns for a listing of the intersection. */
  function Compared(listing: seq<string>, api: TrendApi, maxKeywords: int): seq<Row> {
    var filtered := Filtered(listing, maxKeywords);
    Top(ScoredRows(RelativeFrequency(filtered), GuardedTrends(api, filtered), filtered), TotalOf, RowLimit)
  }

  /** `calculator`: intersect the crawler's brand-free and trend keywords, keep the
      first `max_keywords`, score them and return the ten best totals. */
  method Calculator(nobrand: seq<string>, trend: seq<string>, listing: seq<string>, api: TrendApi,
                    maxKeywords: int := DefaultMaxKeywords)
    returns (rows: seq<Row>)
    requires IsIntersectionListing(listing, nobrand, trend)
    ensures rows == Compared(listing, api, maxKeywords)
  {
    var rawKeywords := set k | k in nobrand;
    var keywordsWithTrend := set k | k in trend;
    assert forall k :: k in listing <==> k in rawKeywords * keywordsWithTrend;
    var filteredKeywords := PyPrefix(listing, maxKeywords);
    var trendScores := CalculateTrendScoresSequential(api, filteredKeywords);
    var frequencyScores := RelativeFrequency(filteredKeywords);
    var scores := ScoreRows(frequencyScores, trendScores, filteredKeywords);
    rows := Top(scores, TotalOf, RowLimit);
  }

  /** A prefix of a duplicate-free list is duplicate-free and holds only its
      elements. */
  lemma FilteredDistinct(listing: seq<string>, maxKeywords: int)
    requires Distinct(listing)
    ensures Distinct(Filtered(listing, maxKeywords))
    ensures forall k :: k in Filtered(listing, maxKeywords) ==> k in listing
  {
    var f := Filtered(listing, maxKeywords);
    assert f == listing[..|f|];
    forall k | k in f
      ensures k in listing
    {
      var i :| 0 <= i < |f| && f[i] == k;
      assert listing[i] == k;
    }
  }

  /** The returned rows: at most ten, and at most `max_keywords`, by non-increasing
      total; every keyword is both brand-free and trending; every frequency score is
      the same `1 / len(filtered_keywords)`, since the listing repeats no keyword;
      the trend score is the service's (0 without one) and the total is their sum. */
  lemma ComparedMeaning(nobrand: seq<string>, trend: seq<string>, listing: seq<string>, api: TrendApi, maxKeywords: int)
    requires IsIntersectionListing(listing, nobrand, trend)
    ensures var rows := Compared(listing, api, maxKeywords);
      && |rows| <= RowLimit
      && (maxKeywords >= 0 ==> |rows| <= maxKeywords)
      && NonIncreasing(rows, TotalOf)
      && forall row :: row in rows ==>
        && row.keyword in nobrand && row.keyword in trend
        && row.frequency == Ratio(1, |Filtered(listing, maxKeywords)|)
        && row.trend == Get0(GuardedTrends(api, Filtered(listing, maxKeywords)), row.keyword)
        && row.total == row.frequency + row.trend
  {
    var filtered := Filtered(listing, maxKeywords);
    var freq := RelativeFrequency(filtered);
    var rows := Compared(listing, api, maxKeywords);
    TopScoredMeaning(freq, GuardedTrends(api, filtered), filtered, RowLimit);
    FilteredDistinct(listing, maxKeywords);
    RelativeFrequencyBounds(filtered);
    UniformOnDistinct(filtered);
    forall row | row in rows
      ensures row.keyword in nobrand && row.keyword in trend
      ensures row.frequency == Ratio(1, |filtered|)
    {
      assert row.keyword in filtered;
      assert row.keyword in freq;
    }
  }

  /** Since every row has the same frequency score, two rows compare by their trend
      scores alone: the ranking is the trend ranking. */
  lemma RankedByTrendAlone(nobrand: seq<string>, trend: seq<string>, listing: seq<string>, api: TrendApi,
                           maxKeywords: int, a: Row, b: Row)
    requires IsIntersectionListing(listing, nobrand, trend)
    requires a in Compared(listing, api, maxKeywords) && b in Compared(listing, api, maxKeywords)
    ensures a.total <= b.total <==> a.trend <= b.trend
  {
    ComparedMeaning(nobrand, trend, listing, api, maxKeywords);
  }
}
