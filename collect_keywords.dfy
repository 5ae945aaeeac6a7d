/** The post-fetch logic of the crawler in collect_keywords.py: the tokens of the
    top product titles, the keyword-planner ranking, and the brand-free keyword
    list. What the browser and the HTTP calls return is taken as input. */
module CollectKeywords {
  import opened Text
  import opened Ranking
  import opened Brands

  /** The whitespace-separated tokens of some title. */
  ghost predicate IsTitleToken(x: string, titles: seq<string>) {
    exists j :: 0 <= j < |titles| && x in Words(titles[j])
  }

  /** `get_top_keywords` after the page is read: collect the `split()` tokens of the
      titles in a set, then return them sorted. */
  method TopKeywords(topTitles: seq<string>) returns (keywords: seq<string>)
    ensures StrictlyIncreasing(keywords)
    ensures forall x :: x in keywords <==> IsTitleToken(x, topTitles)
    ensures forall i :: 0 <= i < |keywords| ==> keywords[i] != [] && NoSpace(keywords[i])
  {
    var tokens: set<string> := {};
    var i := 0;
    while i < |topTitles|
      invariant 0 <= i <= |topTitles|
      invariant forall x :: x in tokens <==> IsTitleToken(x, topTitles[..i])
      invariant forall x :: x in tokens ==> x != [] && NoSpace(x)
    {
      var words := Words(topTitles[i]);
      tokens := tokens + set w | w in words;
      assert forall j :: 0 <= j < i ==> topTitles[..i + 1][j] == topTitles[..i][j];
      assert topTitles[..i + 1][i] == topTitles[i];
      i := i + 1;
    }
    assert topTitles[..i] == topTitles;
    keywords := SortedOf(tokens);
  }

  /** A planner count: a number, or the string `'< 10'` for low volumes. */
  datatype Count = Exact(n: int) | UnderTen

  /** One entry of `keywordList`: `relKeyword`, `monthlyPcQcCnt`, `monthlyMobileQcCnt`. */
  datatype PlannerItem = PlannerItem(relKeyword: string, pc: Count, mobile: Count)

  /** `{'키워드': ..., '월간 검색량': ...}`. */
  datatype Candidate = Candidate(keyword: string, volume: int)

  /** The most planner keywords returned: `[:100]`. */
  const PlannerLimit := 100

  /** Neither count is `'< 10'`. */
  predicate Reported(item: PlannerItem) {
    item.pc.Exact? && item.mobile.Exact?
  }

  function CandidateOf(item: PlannerItem): Candidate
    requires Reported(item)
  {
    Candidate(item.relKeyword, item.pc.n + item.mobile.n)
  }

  /** The list comprehension over `keywordList`: reported items, in API order, with
      their two counts added. */
  function Candidates(items: seq<PlannerItem>): seq<Candidate> {
    if items == [] then []
    else
      var last := items[|items| - 1];
      Candidates(items[..|items| - 1]) + (if Reported(last) then [CandidateOf(last)] else [])
  }

  function VolumeOf(c: Candidate): real {
    c.volume as real
  }

  /** `get_trend_keywords` after the request: the keywords of the 100 candidates with
      the largest volume, ties in API order. */
  function TrendKeywords(items: seq<PlannerItem>): (r: seq<string>)
    ensures |r| == Min(PlannerLimit, |Candidates(items)|)
  {
    var top := Top(Candidates(items), VolumeOf, PlannerLimit);
    seq(|top|, i requires 0 <= i < |top| => top[i].keyword)
  }

  /** A candidate is exactly a reported item with its volume. */
  lemma {:induction false} CandidatesMeaning(items: seq<PlannerItem>)
    ensures forall c :: c in Candidates(items) <==> exists item :: item in items && Reported(item) && c == CandidateOf(item)
  {
    if items != [] {
      CandidatesMeaning(items[..|items| - 1]);
      assert items == items[..|items| - 1] + [items[|items| - 1]];
    }
  }

  /** The keywords are listed by non-increasing volume, and the candidates of equal
      volume keep their API order. */
  lemma TrendKeywordsMeaning(items: seq<PlannerItem>)
    ensures NonIncreasing(Top(Candidates(items), VolumeOf, PlannerLimit), VolumeOf)
    ensures forall v :: WithKey(SortDesc(Candidates(items), VolumeOf), VolumeOf, v) == WithKey(Candidates(items), VolumeOf, v)
  {
    TopCorrect(Candidates(items), VolumeOf, PlannerLimit);
    SortDescCorrect(Candidates(items), VolumeOf);
  }

  /** `k` is the keyword of an item the planner reported. */
  ghost predicate ReportedKeyword(items: seq<PlannerItem>, k: string) {
    exists item :: item in items && Reported(item) && item.relKeyword == k
  }

  /** Each of the (at most 100) keywords is the keyword of a reported item. */
  lemma TrendKeywordsReported(items: seq<PlannerItem>)
    ensures |TrendKeywords(items)| <= PlannerLimit
    ensures forall i :: 0 <= i < |TrendKeywords(items)| ==> ReportedKeyword(items, TrendKeywords(items)[i])
  {
    forall i | 0 <= i < |TrendKeywords(items)| {
      TrendKeywordReported(items, i);
    }
  }

  lemma TrendKeywordReported(items: seq<PlannerItem>, i: int)
    requires 0 <= i < |TrendKeywords(items)|
    ensures ReportedKeyword(items, TrendKeywords(items)[i])
  {
    var top := Top(Candidates(items), VolumeOf, PlannerLimit);
    assert TrendKeywords(items)[i] == top[i].keyword && top[i] in top;
    TopCandidateReported(items, top[i]);
  }

  /** A candidate kept among the 100 comes from a reported item. */
  lemma TopCandidateReported(items: seq<PlannerItem>, c: Candidate)
    requires c in Top(Candidates(items), VolumeOf, PlannerLimit)
    ensures exists item :: item in items && Reported(item) && item.relKeyword == c.keyword
  {
    var cands := Candidates(items);
    TopCorrect(cands, VolumeOf, PlannerLimit);
    assert c in multiset(Top(cands, VolumeOf, PlannerLimit));
    assert c in cands;
    CandidatesMeaning(items);
    var item :| item in items && Reported(item) && c == CandidateOf(item);
    assert item.relKeyword == c.keyword;
  }

  /** `get_nobrand_keywords`: the related, top and trend keywords in that order,
      without those that contain a brand of the brand list. */
  method NoBrandKeywords(related: seq<string>, top: seq<string>, trend: seq<string>, brandList: seq<string>)
    returns (nobrand: seq<string>)
    ensures nobrand == WithoutBrands(related + top + trend, set b | b in brandList)
  {
    var total := [];
    total := total + related;
    total := total + top;
    total := total + trend;
    var brands := set b | b in brandList;
    nobrand := [];
    var i := 0;
    while i < |total|
      invariant 0 <= i <= |total|
      invariant nobrand == WithoutBrands(total[..i], brands)
    {
      var kw := total[i];
      if !ContainsBrand(kw, brands) {
        nobrand := nobrand + [kw];
      }
      assert total[..i + 1][..i] == total[..i];
      i := i + 1;
    }
    assert total[..i] == total;
    assert total == related + top + trend;
  }

  /** The brand-free list holds exactly the brand-free keywords of the three lists,
      in order, filtering it again changes nothing, and an empty brand list keeps
      everything. */
  lemma NoBrandKeywordsMeaning(related: seq<string>, top: seq<string>, trend: seq<string>, brandList: seq<string>)
    ensures var r := WithoutBrands(related + top + trend, set b | b in brandList);
      && (forall kw :: kw in r <==> kw in related + top + trend && !ContainsBrand(kw, set b | b in brandList))
      && r == WithoutBrands(related, set b | b in brandList) + WithoutBrands(top, set b | b in brandList)
              + WithoutBrands(trend, set b | b in brandList)
      && WithoutBrands(r, set b | b in brandList) == r
      && (brandList == [] ==> r == related + top + trend)
  {
    var brands := set b | b in brandList;
    WithoutBrandsMembers(related + top + trend, brands);
    WithoutBrandsAppend(related + top, trend, brands);
    WithoutBrandsAppend(related, top, brands);
    WithoutBrandsIdempotent(related + top + trend, brands);
    if brandList == [] {
      assert brands == {};
      NoBrandsKeepsAll(related + top + trend);
    }
  }
}
