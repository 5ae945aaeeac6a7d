/** compare_keywords_cloud.py: brand list from the app's secrets, brand filter,
    max-normalised frequency, the 30-day/7-day trend pair blended 0.7/0.3, and the
    ranking. */
module CompareKeywordsCloud {
  import opened Text
  import opened OrderedDicts
  import opened Grouping
  import opened Frequency
  import opened Trend
  import opened Chunking
  import opened TrendFetch
  import opened Ranking
  import opened Brands

  datatype Option<T> = None | Some(value: T)

  /** The default of `max_keywords`. */
  const DefaultMaxKeywords := 15

  /** `load_brands`: the secret's text split at every newline, as a set; no secret,
      no brand. */
  function LoadBrands(secret: Option<string>): (brands: set<string>)
    ensures secret.None? ==> brands == {}
    ensures forall b :: b in brands ==> '\n' !in b
  {
    match secret
    case None => {}
    case Some(text) => set b | b in SplitOn(text, '\n')
  }

  /** The brands are the lines of the secret: joined back with newlines, the lines
      give the text, and each of them is a brand. */
  lemma LoadBrandsLines(text: string)
    ensures JoinWith(SplitOn(text, '\n'), '\n') == text
    ensures forall i :: 0 <= i < |SplitOn(text, '\n')| ==> SplitOn(text, '\n')[i] in LoadBrands(Some(text))
  {
    SplitJoin(text, '\n');
  }

  /** A secret that ends with a newline holds the empty brand, which every keyword
      contains: the filter then removes every keyword. */
  lemma TrailingNewlineRemovesAll(text: string, keywords: seq<string>)
    requires text != [] && text[|text| - 1] == '\n'
    ensures WithoutBrands(keywords, LoadBrands(Some(text))) == []
  {
    SplitOnTrailingSeparator(text, '\n');
    var pieces := SplitOn(text, '\n');
    assert pieces[|pieces| - 1] in pieces;
    EmptyBrandRemovesAll(keywords, LoadBrands(Some(text)));
  }

  /** The scores of a keyword without trend data: both `.get(..., 0)` give 0. */
  const NoTrend := TrendPair(0.0, 0.0)

  /** `trend_scores.get(kw, {})`, with 0 for a missing "30일" or "7일". */
  function TrendOf(trends: map<string, TrendPair>, kw: string): TrendPair {
    if kw in trends then trends[kw] else NoTrend
  }

  function RowFor(freq: Dict<real>, trends: map<string, TrendPair>, kw: string): Row
    requires kw in freq.entries
  {
    var f := freq.entries[kw];
    var t := Blend(TrendOf(trends, kw));
    Row(kw, f, t, f + t)
  }

  /** One row per key of `keys`, in that order. */
  function RowsOf(freq: Dict<real>, trends: map<string, TrendPair>, keys: seq<string>): (rows: seq<Row>)
    requires forall i :: 0 <= i < |keys| ==> keys[i] in freq.entries
    ensures |rows| == |keys|
  {
    if keys == [] then []
    else RowsOf(freq, trends, keys[..|keys| - 1]) + [RowFor(freq, trends, keys[|keys| - 1])]
  }

  /** One row per frequency key, in the frequency dictionary's order. */
  function Rows(freq: Dict<real>, trends: map<string, TrendPair>): seq<Row>
    requires freq.Valid()
  {
    RowsOf(freq, trends, freq.keys)
  }

  /** Every row is the row of one of the keys. */
  lemma {:induction false} RowsOfMembers(freq: Dict<real>, trends: map<string, TrendPair>, keys: seq<string>)
    requires forall i :: 0 <= i < |keys| ==> keys[i] in freq.entries
    ensures forall row :: row in RowsOf(freq, trends, keys) ==> row.keyword in keys && row == RowFor(freq, trends, row.keyword)
  {
    if keys != [] {
      RowsOfMembers(freq, trends, keys[..|keys| - 1]);
    }
  }

  /** What `calculator` returns for the crawler's keywords and the loaded brands:
      the failure of any trend request, or the ranked rows. */
  function Ranked(keywords: seq<string>, brands: set<string>, api: TrendApi, maxKeywords: int): Result<seq<Row>> {
    var freq := FrequencyScores(WithoutBrands(keywords, brands));
    match PairTrends(api, Chunks(freq.keys))
    case HttpFailure => HttpFailure
    case Success(trends) => Success(Top(Rows(freq, trends), TotalOf, maxKeywords))
  }

  /** The body of the loop over `frequency_scores.items()`: one keyword's row. */
  method ScoreRow(frequencyScores: Dict<real>, trendScores: map<string, TrendPair>, kw: string) returns (row: Row)
    requires kw in frequencyScores.entries
    ensures row == RowFor(frequencyScores, trendScores, kw)
  {
    var trend := TrendOf(trendScores, kw);
    var finalTrendScore := Blend(trend);
    var freq := frequencyScores.entries[kw];
    row := Row(kw, freq, finalTrendScore, freq + finalTrendScore);
  }

  lemma RowsOfStep(freq: Dict<real>, trends: map<string, TrendPair>, keys: seq<string>, i: nat)
    requires forall j :: 0 <= j < |keys| ==> keys[j] in freq.entries
    requires i < |keys|
    ensures RowsOf(freq, trends, keys[..i + 1]) == RowsOf(freq, trends, keys[..i]) + [RowFor(freq, trends, keys[i])]
  {
    assert keys[..i + 1][..i] == keys[..i];
  }

  /** The loop over `frequency_scores.items()` that builds one row per key. */
  method BlendedRows(frequencyScores: Dict<real>, trendScores: map<string, TrendPair>) returns (scores: seq<Row>)
    requires frequencyScores.Valid()
    ensures scores == Rows(frequencyScores, trendScores)
  {
    scores := [];
    var i := 0;
    while i < |frequencyScores.keys|
      invariant 0 <= i <= |frequencyScores.keys|
      invariant scores == RowsOf(frequencyScores, trendScores, frequencyScores.keys[..i])
    {
      var row := ScoreRow(frequencyScores, trendScores, frequencyScores.keys[i]);
      RowsOfStep(frequencyScores, trendScores, frequencyScores.keys, i);
      scores := scores + [row];
      i := i + 1;
    }
    assert frequencyScores.keys[..i] == frequencyScores.keys;
  }

  /** `calculator`: the brands returned by the crawler are replaced by the loaded
      ones. */
  method Calculator(keywords: seq<string>, secret: Option<string>, api: TrendApi, maxKeywords: int := DefaultMaxKeywords)
    returns (r: Result<seq<Row>>)
    ensures r == Ranked(keywords, LoadBrands(secret), api, maxKeywords)
  {
    var brands := LoadBrands(secret);
    var filteredKeywords := WithoutBrands(keywords, brands);
    var frequencyScores := FrequencyScore(filteredKeywords);
    var trendScores := CalculateTrendPairs(api, frequencyScores.keys);
    if trendScores.HttpFailure? {
      return HttpFailure;
    }
    var scores := BlendedRows(frequencyScores, trendScores.value);
    return Success(Top(scores, TotalOf, maxKeywords));
  }

  /** The ranking of the rows of any frequency dictionary: at most `n` rows, by
      non-increasing total; each is the row of one of its keys, with that key's
      frequency score and the blended trend (0 for a key without trend); rows of
      equal total keep the dictionary's order. */
  lemma TopRowsMeaning(freq: Dict<real>, trends: map<string, TrendPair>, n: int)
    requires freq.Valid()
    ensures var rows := Top(Rows(freq, trends), TotalOf, n);
      && (n >= 0 ==> |rows| <= n)
      && NonIncreasing(rows, TotalOf)
      && forall row :: row in rows ==>
        && row.keyword in freq.entries
        && row.frequency == freq.entries[row.keyword]
        && row.trend == Blend(TrendOf(trends, row.keyword))
        && row.total == row.frequency + row.trend
    ensures forall v :: WithKey(SortDesc(Rows(freq, trends), TotalOf), TotalOf, v) == WithKey(Rows(freq, trends), TotalOf, v)
  {
    var all := Rows(freq, trends);
    var rows := Top(all, TotalOf, n);
    TopCorrect(all, TotalOf, n);
    SortDescCorrect(all, TotalOf);
    RowsOfMembers(freq, trends, freq.keys);
    forall row | row in rows
      ensures row in all
    {
      assert row in multiset(rows);
    }
  }

  /** The ranked rows of `calculator`: besides the ranking above, each row's keyword
      is the group key of some input keyword that contains no brand, its frequency
      score lies in (0, 1], and its trend is the 0.7/0.3 blend of the pair fetched
      for it (0 without one). */
  lemma RankedMeaning(keywords: seq<string>, brands: set<string>, api: TrendApi, maxKeywords: int)
    requires Ranked(keywords, brands, api, maxKeywords).Success?
    ensures var rows := Ranked(keywords, brands, api, maxKeywords).value;
      && (maxKeywords >= 0 ==> |rows| <= maxKeywords)
      && NonIncreasing(rows, TotalOf)
      && forall row :: row in rows ==>
        && (exists kw :: kw in keywords && !ContainsBrand(kw, brands) && Normalize(kw) == row.keyword)
        && 0.0 < row.frequency <= 1.0
        && row.trend == Blend(TrendOf(PairTrends(api, Chunks(FrequencyScores(WithoutBrands(keywords, brands)).keys)).value, row.keyword))
        && row.total == row.frequency + row.trend
  {
    var filtered := WithoutBrands(keywords, brands);
    var freq := FrequencyScores(filtered);
    var trends := PairTrends(api, Chunks(freq.keys)).value;
    var rows := Top(Rows(freq, trends), TotalOf, maxKeywords);
    assert rows == Ranked(keywords, brands, api, maxKeywords).value;
    TopRowsMeaning(freq, trends, maxKeywords);
    FrequencyScoresMeaning(filtered);
    GroupsContents(filtered);
    WithoutBrandsMembers(keywords, brands);
    forall row | row in rows
      ensures exists kw :: kw in keywords && !ContainsBrand(kw, brands) && Normalize(kw) == row.keyword
    {
      var k := row.keyword;
      MembersMeaning(filtered, k);
      var kw := Members(filtered, k)[0];
      assert kw in Members(filtered, k);
    }
  }

  /** A row's keyword is the normalised key, so a brand can reappear in it: the
      keyword "나이-키" passes the filter for the brand "나이키", and its key is
      "나이키". */
  lemma BrandReappearsInKey()
    ensures !ContainsBrand("나이-키", {"나이키"})
    ensures Normalize("나이-키") == "나이키"
    ensures ContainsBrand(Normalize("나이-키"), {"나이키"})
  {
    var kw := "나이-키";
    var brand := "나이키";
    assert kw[2] == '-' && kw[3] == '키';
    assert kw[0..3] != brand by { assert kw[0..3][2] == '-'; }
    assert kw[1..4] != brand by { assert kw[1..4][0] == '이'; }
    assert !IsSubstring(brand, kw) by {
      forall i | 0 <= i <= |kw| - |brand|
        ensures !OccursAt(brand, kw, i)
      {
        assert i == 0 || i == 1;
      }
    }
    NormalizeHyphenatedBrand();
    SubstringOfItself(brand);
  }

  lemma NormalizeHyphenatedBrand()
    ensures Normalize("나이-키") == "나이키"
  {
    NormalizeAppend("나이", "-키");
    NormalizeAppend("-", "키");
    NormalizeKeepsExactlyKeyChars("나이");
    NormalizeKeepsExactlyKeyChars("키");
    assert "나이-키" == "나이" + "-키";
    assert "-키" == "-" + "키";
    assert "나이" + "키" == "나이키";
  }

  /** With a service whose titles are group names, a key longer than 19 characters
      always has trend 0, so its total is its frequency score alone. */
  lemma LongKeyHasNoTrend(keywords: seq<string>, brands: set<string>, api: TrendApi, maxKeywords: int, row: Row)
    requires TitlesAreGroupNames(api)
    requires Ranked(keywords, brands, api, maxKeywords).Success?
    requires row in Ranked(keywords, brands, api, maxKeywords).value && |row.keyword| > GroupNameLimit
    ensures row.trend == 0.0 && row.total == row.frequency
  {
    var freq := FrequencyScores(WithoutBrands(keywords, brands));
    var trends := PairTrends(api, Chunks(freq.keys)).value;
    assert row in Top(Rows(freq, trends), TotalOf, maxKeywords);
    TopRowsMeaning(freq, trends, maxKeywords);
    LongKeywordHasNoTrendPair(api, Chunks(freq.keys), row.keyword);
  }
}
