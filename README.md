# Keyword scoring, modelled in Dafny

This project models the in-memory keyword-scoring logic of a Korean shopping-keyword
recommender. The logic is spread over four Python scripts:

- **collect_keywords.py**: the crawler. Once the pages and API replies are in, it
  does three things:
  - tokenises product titles into a sorted, duplicate-free keyword list;
  - ranks keyword-planner items by monthly search volume and keeps the top 100;
  - removes every keyword that contains a brand.
- **compare_keywords_cloud.py**: loads a brand list from a newline-separated secret
  and drops keywords containing a brand. It then groups the remaining keywords by
  their normalised key, keeping only Hangul syllables and ASCII letters. Next it
  scores each group by a max-normalised match count. It fetches a 30-day and a
  7-day trend ratio from the DataLab search-trend service, in chunks of five
  keywords. It blends the two ratios 0.7/0.3, adds them to the frequency score,
  and returns the `max_keywords` best totals.
- **collect_keywords_cloud.py**: the same grouping and frequency score, with a
  single recent-over-prior trend ratio. A failed or non-200 request contributes
  nothing.
- **compare_keywords.py**: intersects the brand-free and trending keyword sets and
  keeps the first `max_keywords` of them. It scores them by relative frequency and
  a sequentially fetched trend ratio, and returns the ten best totals.

Model layout:

- One module per component: `Text`, `OrderedDicts`, `Grouping`, `Frequency`,
  `Trend`, `Chunking`, `TrendFetch`, `Ranking`, `Brands` and `Scoring`.
- One module per script: `CollectKeywords`, `CompareKeywordsCloud`,
  `CollectKeywordsCloud` and `CompareKeywords`.
- Python dicts whose insertion order is observable are `Dict` values: a key
  sequence plus a map. This covers the group dictionary and the `Counter`, whose
  key order breaks ties in the stable sort. Maps that are only looked up are plain
  `map`s.
- The DataLab service is a function parameter from the request's keyword groups to
  a reply (`TrendApi`). The crawler's results are plain inputs.
- The scripts' update-in-place loops are methods. Each is proved equal to a
  specification function, and the scripts' promises are proved about those
  functions. The two merges, `Chunking.MergeAll` (the `dict.update` fold) and
  `TrendFetch.PairTrends` (the same fold, failing with any chunk), are plain
  definitions; what they promise is stated by `Chunking.MergeAllKeys`,
  `Chunking.LastPartWins`, `TrendFetch.PairTrendsMergeAll`,
  `TrendFetch.PairTrendsMerged` and `TrendFetch.PairTrendsFailure`.

Three behaviours of the code are easy to miss, and the model follows the code in
each:

- **Brand filter.** compare_keywords_cloud.py filters brands out of the raw
  keywords, before grouping, not out of the scored keys. Normalising can therefore
  rebuild a brand inside a key: `CompareKeywordsCloud.BrandReappearsInKey` shows
  one.
- **Trend-request failure.** compare_keywords_cloud.py has no handler around the
  trend request, so one failed chunk fails the whole calculation
  (`TrendFetch.PairTrendsFailure`). The other two scripts skip a failed chunk.
- **Row limit.** compare_keywords.py always returns at most ten rows. Its
  `max_keywords` limits the candidates, not the rows.

Two more behaviours of the code are stated as lemmas:

- **Long keywords.** A keyword longer than 19 characters is sent under a truncated
  group name. The service answers under that name, so the keyword never finds its
  own trend score and ranks on frequency alone (`TrendFetch.LongKeywordHasNoTrend`,
  `CompareKeywordsCloud.LongKeyHasNoTrend`,
  `CollectKeywordsCloud.LongKeyRanksOnFrequency`).
- **Uniform frequency.** In compare_keywords.py the candidates come from a set, so
  each occurs once. Their relative frequencies are then all equal, and the ranking
  is by trend alone (`CompareKeywords.RankedByTrendAlone`).

## Model

| member | source | states |
|---|---|---|
| CollectKeywords.TopKeywords | collect_keywords.py:85-89 | the result is strictly increasing (sorted, no duplicates), holds exactly the whitespace-separated tokens of the titles, and no token is empty or contains whitespace |
| Text.Words | collect_keywords.py:87 | every token `split()` yields is non-empty and contains no whitespace |
| Text.WordsOfWord | collect_keywords.py:87 | a non-empty run without whitespace is one token: `split()` never cuts inside a run |
| Text.WordsSplitAtSpace | collect_keywords.py:87 | a whitespace character always separates: the tokens of `a + c + b` are those of `a` followed by those of `b`; with `WordsOfWord` the tokens are exactly the maximal runs |
| Text.WordsKeepCharacters | collect_keywords.py:87 | the tokens, concatenated, are the title with its whitespace removed: `split()` loses no other character |
| Text.SortedOf | collect_keywords.py:89 | `sorted(list(keywords))` of a set is strictly increasing in code-point order and has exactly the set's members |
| Text.StrLessTotal | collect_keywords.py:89 | any two different strings are ordered one way or the other, so the sort leaves no tie |
| Text.StrLessTransitive | collect_keywords.py:89 | the string order is transitive |
| CollectKeywords.CandidatesMeaning | collect_keywords.py:154-161 | a candidate is exactly an item with neither count `'< 10'`, and its volume is the PC count plus the mobile count |
| CollectKeywords.TrendKeywords | collect_keywords.py:152-164 | as many keywords as there are candidates, up to 100 |
| CollectKeywords.TrendKeywordsMeaning | collect_keywords.py:163 | the kept candidates are in non-increasing volume, and candidates of equal volume keep the API order |
| CollectKeywords.TrendKeywordsReported | collect_keywords.py:154-164 | at most 100 keywords, each the keyword of an item with exact counts |
| CollectKeywords.TopCandidateReported | collect_keywords.py:163-164 | a candidate kept in the top 100 comes from a reported item |
| CollectKeywords.NoBrandKeywords | collect_keywords.py:170-183 | the loop returns the brand filter applied to related ++ top ++ trend keywords |
| CollectKeywords.NoBrandKeywordsMeaning | collect_keywords.py:170-183 | a keyword is kept iff it is an input keyword with no brand as a substring; the order is kept list by list; filtering again changes nothing; an empty brand list returns the concatenation unchanged |
| Brands.WithoutBrandsMembers | collect_keywords.py:178-181 | a keyword survives the filter iff it is in the input and contains no brand |
| Brands.WithoutBrands | compare_keywords_cloud.py:104 | the filter keeps no more keywords than it is given, and every survivor is an input keyword with no brand as a substring |
| Brands.WithoutBrandsAppend | collect_keywords.py:170-183 | filtering a concatenation is the concatenation of the filtered parts (input order is kept) |
| Brands.WithoutBrandsIdempotent | collect_keywords.py:178-181 | filtering the filter's own output changes nothing |
| Brands.NoBrandsKeepsAll | collect_keywords.py:178-181 | with no brand every keyword is kept, in order |
| Brands.EmptyBrandRemovesAll | compare_keywords_cloud.py:104 | the empty brand is a substring of every keyword, so it removes every keyword |
| Brands.BrandInsideRemoved | compare_keywords_cloud.py:104 | a keyword with a brand inside it is caught by the filter |
| Text.SubstringOfItself | compare_keywords_cloud.py:43 | every string contains itself, so every group member matches its own keyword |
| CompareKeywordsCloud.LoadBrands | compare_keywords_cloud.py:17-22 | no secret gives no brand; no brand contains a newline |
| CompareKeywordsCloud.LoadBrandsLines | compare_keywords_cloud.py:19-21 | joining the brand lines with newlines rebuilds the secret, and each line is a brand |
| CompareKeywordsCloud.TrailingNewlineRemovesAll | compare_keywords_cloud.py:19-21 | a secret that ends in a newline yields the empty brand, and then the filter removes every keyword |
| Text.SplitOn | compare_keywords_cloud.py:20 | `split("\n")` gives at least one piece and no piece holds the separator |
| Text.SplitJoin | compare_keywords_cloud.py:20 | joining the pieces with the separator gives back the text |
| Text.SplitOnTrailingSeparator | compare_keywords_cloud.py:20 | a text ending in the separator splits into at least two pieces, the last of them empty |
| Grouping.NormalizeKeepsExactlyKeyChars | compare_keywords_cloud.py:28 | a class character is kept as it is and any other character is deleted, not replaced; so the key holds only Hangul syllables and ASCII letters, is no longer than the keyword, is the keyword itself when it has only such characters, and is strictly shorter otherwise |
| Grouping.NormalizeAppend | compare_keywords_cloud.py:28 | characters are kept or dropped one at a time: the key of a concatenation is the concatenation of the keys |
| Grouping.NormalizeIdempotent | compare_keywords_cloud.py:28 | normalising a key again changes nothing |
| Grouping.SpacingVariantsShareKey | compare_keywords_cloud.py:28-33 | "블루투스-이어폰 2.0" and "블루투스이어폰20" fall into the one group "블루투스이어폰" |
| Grouping.Normalize | compare_keywords_cloud.py:28 | `re.sub` leaves a key of class characters only, never longer than the keyword |
| Grouping.GroupByKey | compare_keywords_cloud.py:25-34 | the loop builds the group dictionary: its keys are longer than one character and made of key characters only, each key lists exactly its keywords in input order, and a keyword's key is present iff it is longer than one character |
| Grouping.MembersMeaning | compare_keywords_cloud.py:31-33 | a keyword is listed under a key iff it is an input keyword whose normalised form is that key |
| Grouping.GroupsContents | compare_keywords_cloud.py:26-34 | a key is present iff it is longer than one character and some keyword normalises to it, and then it lists exactly those keywords |
| Grouping.GroupsKeys | compare_keywords_cloud.py:27-33 | every key is made of key characters only and is longer than one character; a keyword's key is present iff the keyword is kept |
| Grouping.KeptKeywordInOwnGroup | compare_keywords_cloud.py:29-33 | a kept keyword is listed under its own key and under no other |
| Grouping.GroupsTotalSize | compare_keywords_cloud.py:26-34 | the group lists together are exactly as long as the list of kept keywords |
| Grouping.KeyIsNormalized | compare_keywords_cloud.py:28-30 | a key with members is made of key characters only |
| OrderedDicts.Assign | compare_keywords_cloud.py:31-33 | writing a key updates the map; a new key is appended to the key order, and an existing one keeps its place |
| Frequency.CountKeyword | compare_keywords_cloud.py:42-44 | one keyword's pass over the patterns adds one to each group that has a member inside the keyword, and changes no other count |
| Frequency.TallyKeywordEffect | compare_keywords_cloud.py:42-44 | the Counter gains exactly the groups the keyword matches, each by one |
| Frequency.TallyCounts | compare_keywords_cloud.py:40-44 | after the loop each group's count is the number of keywords that contain one of its members, and a group is in the Counter iff that number is positive |
| Frequency.OwnGroupCounted | compare_keywords_cloud.py:39-44 | every group is counted at least once, since its members contain themselves |
| Frequency.CountsMeaning | compare_keywords_cloud.py:40-45 | the Counter has exactly the groups as keys, each with a count of at least one, and its maximum is the largest match count |
| Frequency.MaxValueBounds | compare_keywords_cloud.py:45 | the maximum bounds every count and is reached by one |
| Frequency.NormalizedBounds | compare_keywords_cloud.py:45-46 | dividing counts of at least one by their maximum gives scores in (0, 1], and the largest count scores exactly 1 |
| Frequency.FrequencyScoresMeaning | compare_keywords_cloud.py:37-46 | the scores cover exactly the groups in Counter order; each is the group's match count over the largest; each lies in (0, 1]; one is exactly 1 unless no keyword was kept, and then the map is empty (no division by zero) |
| Frequency.FrequencyScore | compare_keywords_cloud.py:37-46 | the scoring code computes the specified scores: same keys as the groups, values in (0, 1], a 1.0 unless empty, empty iff no keyword is kept |
| Frequency.KeptIffGroups | compare_keywords_cloud.py:45-46 | there are no groups iff no keyword is kept |
| Frequency.RatioBounds | compare_keywords_cloud.py:46 | a count between one and the maximum divides to a score in (0, 1], and the maximum itself to 1 |
| Trend.RecentRatio | collect_keywords_cloud.py:66-71 | a series of fewer than two points, or one with a zero prior mean, scores 0 |
| Trend.WeekRatio | compare_keywords_cloud.py:71-82 | the "7일" score is 0 for fewer than two points or a zero prior mean |
| Trend.LastWeek | compare_keywords_cloud.py:77 | the last `min(7, len)` points of the series |
| Trend.PairScore | compare_keywords_cloud.py:71-83 | the pair holds the 30-day ratio and the 7-day ratio of the series |
| Trend.Blend | compare_keywords_cloud.py:113 | the 0.7/0.3 blend lies between the two ratios and equals them when they agree |
| Trend.ScaleInvariant | compare_keywords_cloud.py:74-82 | multiplying a series by a positive constant leaves both ratios unchanged, so the scores do not depend on the scale DataLab normalises each request's ratios to |
| Trend.SteadySeries | compare_keywords_cloud.py:74-82 | a constant non-zero series scores exactly 1 on both ratios |
| Trend.NonNegativeScores | compare_keywords_cloud.py:74-82 | non-negative ratios in the series give non-negative scores |
| Trend.RisingSeries | compare_keywords_cloud.py:74-81 | with a positive prior mean, the 30-day score exceeds 1 iff the last point exceeds the prior mean |
| Text.Strip | compare_keywords_cloud.py:51 | `strip()` gives a string with no whitespace at either end, no longer than the input |
| Text.StripRemovesOnlySurroundingSpace | compare_keywords_cloud.py:51 | the stripped string is a slice `s[i:j]` of the input with only whitespace before `i` and after `j`; with `Strip`'s own contract this is exactly `strip()` |
| Text.StripNoSpace | compare_keywords_cloud.py:51 | stripping a string without whitespace changes nothing |
| Text.PyPrefix | compare_keywords_cloud.py:51 | the slice `s[:n]` is a prefix of `s` of length `min(n, len)`, or `len + n` counted from the end for negative `n` |
| TrendFetch.GroupFor | compare_keywords_cloud.py:51 | a group name has at most 19 characters, and the group holds the stripped keyword |
| TrendFetch.RequestGroups | compare_keywords_cloud.py:51 | every group of a chunk is named in at most 19 characters, and there are no more groups than keywords |
| TrendFetch.RequestGroupsCount | compare_keywords_cloud.py:51 | there is exactly one group per non-blank keyword of the chunk |
| TrendFetch.RequestGroupsAppend | compare_keywords_cloud.py:51 | the groups of two consecutive parts of a chunk are the groups of the first part followed by those of the second: chunk order is kept |
| TrendFetch.RequestGroupsSingle | compare_keywords_cloud.py:51 | a one-keyword chunk yields that keyword's group if it is not blank, and nothing otherwise |
| TrendFetch.RequestGroupsSound | compare_keywords_cloud.py:51 | every group is that of a non-blank keyword of the chunk |
| TrendFetch.RequestGroupsComplete | compare_keywords_cloud.py:51 | every non-blank keyword of the chunk has its group |
| TrendFetch.PlainKeywordNamesItself | compare_keywords_cloud.py:51 | a keyword of at most 19 characters without whitespace is sent under its own name |
| TrendFetch.LongKeywordRenamed | compare_keywords_cloud.py:51 | a keyword longer than 19 characters is never its own group name |
| TrendFetch.ScoreResults | compare_keywords_cloud.py:67-84 | the item loop writes each title's score over the previous scores, in order |
| TrendFetch.ScoreIntoUpdate | compare_keywords_cloud.py:67-84 | scoring items on top of a map is that map updated by the items' own scores |
| TrendFetch.ScoreItemsKeys | compare_keywords_cloud.py:68-69 | the keys are exactly the titles of the items |
| TrendFetch.ScoreItemsLastWins | compare_keywords_cloud.py:68-83 | a title's score is that of its last item |
| TrendFetch.FetchTrendPair | compare_keywords_cloud.py:49-84 | a chunk's request gives its scored pairs, and fails exactly when the service raises an HTTP error |
| TrendFetch.CalculateTrendPairs | compare_keywords_cloud.py:87-96 | draining the chunk futures in submission order gives the merge of the chunk maps (`PairTrends`), or the failure of any chunk |
| TrendFetch.PairTrendsMergeAll | compare_keywords_cloud.py:93-95 | a successful merge is the `dict.update` fold `MergeAll` of the chunk maps, in submission order |
| TrendFetch.PairTrendsMerged | compare_keywords_cloud.py:93-95 | after a successful merge a keyword has a trend pair iff some chunk's reply scored it, and it takes the pair of the last chunk that did |
| TrendFetch.PairTrendsFailure | compare_keywords_cloud.py:92-95 | the merge fails iff the request of some chunk fails |
| TrendFetch.PairTrendsFailed | compare_keywords_cloud.py:92-95 | a failed merge has a failed chunk |
| TrendFetch.PairTrendsSucceeded | compare_keywords_cloud.py:92-95 | in a successful merge every chunk succeeded |
| TrendFetch.PrefixFailure | compare_keywords_cloud.py:94-95 | once a chunk has failed, the whole calculation fails |
| TrendFetch.ChunkKeysAreGroupNames | compare_keywords_cloud.py:51-69 | with a service that answers under the group names, every key of a chunk's scores has at most 19 characters |
| TrendFetch.LongKeywordHasNoTrendPair | compare_keywords_cloud.py:87-96 | with such a service, a keyword longer than 19 characters never gets trend scores |
| Chunking.Chunks | compare_keywords_cloud.py:93 | every chunk is non-empty with at most five keywords, and all but the last have exactly five |
| Chunking.ChunksFlatten | compare_keywords_cloud.py:93 | the chunks, concatenated, are the keyword list: every keyword once, in order |
| Chunking.ChunksAt | compare_keywords_cloud.py:93 | there are `ceil(len / 5)` chunks, and chunk `j` is `keywords[5j : 5j + 5]` |
| Chunking.InSomeChunk | compare_keywords_cloud.py:93 | every keyword lies in some chunk |
| Chunking.MergeAllKeys | collect_keywords_cloud.py:83-84 | a key is in the merged map iff it is in some chunk map |
| Chunking.LastPartWins | collect_keywords_cloud.py:83-84 | a key takes its value from the last chunk map that holds it |
| Ranking.InsertDescElements | compare_keywords_cloud.py:122 | inserting into the ranking adds exactly that element |
| Ranking.InsertDescSorted | compare_keywords_cloud.py:122 | inserting into a non-increasing ranking keeps it non-increasing |
| Ranking.InsertDescStable | compare_keywords_cloud.py:122 | an inserted element goes just before the elements of its own total already in the ranking, and their order is kept |
| Ranking.SortDesc | compare_keywords_cloud.py:122 | the sort returns a permutation of its input: the same elements, each as often |
| Ranking.SortDescCorrect | compare_keywords_cloud.py:122 | `sorted(..., reverse=True)` is non-increasing, and stable: the elements of each total keep their input order |
| Ranking.Top | compare_keywords_cloud.py:122 | `[:n]` keeps `min(n, len)` rows, or all but the last `-n` rows when `n` is negative |
| Ranking.TopCorrect | compare_keywords_cloud.py:122 | the kept rows are non-increasing, come from the input, and no row left out has a larger total than a kept one |
| CompareKeywordsCloud.ScoreRow | compare_keywords_cloud.py:111-120 | a keyword's row: its frequency score, the 0.7/0.3 blend of its trend pair (0 without one), and their sum |
| CompareKeywordsCloud.RowsOf | compare_keywords_cloud.py:109-120 | one row per key |
| CompareKeywordsCloud.RowsOfMembers | compare_keywords_cloud.py:109-120 | every row is the row of one of the keys |
| CompareKeywordsCloud.BlendedRows | compare_keywords_cloud.py:109-120 | the row loop builds one row per frequency key, in the frequency dictionary's order |
| CompareKeywordsCloud.Calculator | compare_keywords_cloud.py:99-122 | the calculator returns the failure of any trend request, or the top `max_keywords` (default 15) ranked rows of the brand-filtered keywords |
| CompareKeywordsCloud.TopRowsMeaning | compare_keywords_cloud.py:109-122 | at most `n` rows by non-increasing total; each is a frequency key with its frequency score, the blended trend (0 without one), and their sum; rows of equal total keep the frequency order |
| CompareKeywordsCloud.RankedMeaning | compare_keywords_cloud.py:99-122 | at most `max_keywords` rows, sorted by total; each keyword is the key of a crawled keyword that contains no brand; its frequency lies in (0, 1]; its trend is the 0.7/0.3 blend of the "30일" and "7일" ratios fetched for it (0 without a pair); its total is frequency plus trend |
| CompareKeywordsCloud.BrandReappearsInKey | compare_keywords_cloud.py:104-110 | "나이-키" passes the filter for the brand "나이키", but its key "나이키" contains that brand |
| CompareKeywordsCloud.NormalizeHyphenatedBrand | compare_keywords_cloud.py:28 | the key of "나이-키" is "나이키" |
| CompareKeywordsCloud.LongKeyHasNoTrend | compare_keywords_cloud.py:109-113 | with a service that answers under the group names, a key longer than 19 characters has trend 0, and its total is its frequency score |
| TrendFetch.FetchTrendGuarded | collect_keywords_cloud.py:43-74 | a chunk's request gives its scored titles; an HTTP error or a status other than 200 gives an empty map |
| TrendFetch.GuardedParts | collect_keywords_cloud.py:82 | one future per chunk |
| TrendFetch.CalculateTrendScoresPooled | collect_keywords_cloud.py:76-85 | updating with the futures' results in submission order gives the ordered merge of the chunk maps |
| Chunking.EmptyPartNeutral | collect_keywords_cloud.py:72-74 | a chunk that yields an empty map leaves the merge of the others unchanged |
| TrendFetch.FailedChunkIgnored | collect_keywords_cloud.py:58-74 | a chunk whose request fails or is not answered with 200 contributes nothing: the merge is that of the other chunks |
| TrendFetch.LongKeywordHasNoTrend | collect_keywords_cloud.py:45-71 | with a service that answers under the group names, a keyword longer than 19 characters never has a trend score |
| TrendFetch.PlainKeywordHasTrend | collect_keywords_cloud.py:45-71 | with a service that answers every group with 200, a keyword of at most 19 characters without whitespace always has a trend score |
| TrendFetch.PlainKeywordInChunk | collect_keywords_cloud.py:45-71 | the same for a single chunk |
| Scoring.ScoredRows | collect_keywords_cloud.py:92-99 | one row per key |
| Scoring.ScoredRowsAt | collect_keywords_cloud.py:92-99 | row `i` is key `i` with its frequency score and trend score (0 when missing) and their sum |
| Scoring.ScoreRows | collect_keywords_cloud.py:92-99 | the row loop builds exactly those rows, in key order |
| Scoring.TopScoredMeaning | collect_keywords_cloud.py:92-100 | at most `n` rows by non-increasing total; each is a key with its two scores (0 when missing) and their sum; rows of equal total keep the key order |
| CollectKeywordsCloud.Calculator | collect_keywords_cloud.py:88-100 | the calculator returns the ranked rows of the frequency keys, with the pooled trend scores |
| CollectKeywordsCloud.CloudRankedMeaning | collect_keywords_cloud.py:88-100 | at most `max_keywords` rows, by non-increasing total; each keyword is a group key of a crawled keyword; its frequency lies in (0, 1]; its trend is the service's score (0 without one); its total is the sum |
| CollectKeywordsCloud.GroupKeyIsPlain | collect_keywords_cloud.py:19-28 | a group key is longer than one character, has no whitespace, and is the key of a crawled keyword |
| CollectKeywordsCloud.LongKeyRanksOnFrequency | collect_keywords_cloud.py:91-98 | with a service that answers under the group names, a key longer than 19 characters has trend 0 and ranks on frequency alone |
| CollectKeywordsCloud.ShortKeyHasTrend | collect_keywords_cloud.py:91-98 | with a service that answers every group, a key of at most 19 characters has the service's trend score |
| Frequency.OccurrencesBounds | compare_keywords.py:20 | a keyword occurs at most as often as the list is long, and occurs iff it is in the list |
| Frequency.RelativeFrequency | compare_keywords.py:19-28 | the scores have exactly the keywords of the list as keys |
| Frequency.RelativeFrequencyBounds | compare_keywords.py:19-28 | the scores cover exactly the distinct keywords (none for an empty list); each is its count over the list length, in (0, 1] |
| Frequency.RelativeFrequencySumsToOne | compare_keywords.py:25-26 | the scores of a non-empty list add up to one |
| Frequency.UniformOnDistinct | compare_keywords.py:25-26 | on a duplicate-free list every keyword scores `1 / len` |
| Frequency.OccurrencesOnce | compare_keywords.py:25-26 | a keyword of a duplicate-free list occurs once |
| TrendFetch.CalculateTrendScoresSequential | compare_keywords.py:31-79 | the loop over chunk starts 0, 5, 10, ... gives the ordered merge of the chunk maps; a failed chunk adds nothing and the loop goes on |
| TrendFetch.ScoreChunkInto | compare_keywords.py:42-77 | one round writes the chunk's scored titles over the scores so far when the reply is a 200; an HTTP error or another status leaves them unchanged |
| Chunking.ChunkAt | compare_keywords.py:39-40 | the slice at start `5c` is chunk `c`, and another chunk follows iff `5c + 5` is still inside the list |
| CompareKeywords.Calculator | compare_keywords.py:82-111 | the calculator returns the ten best rows of the first `max_keywords` keywords of the intersection |
| CompareKeywords.FilteredDistinct | compare_keywords.py:88 | the truncated intersection repeats no keyword and holds only keywords of the intersection |
| CompareKeywords.ComparedMeaning | compare_keywords.py:82-111 | at most ten rows, and at most `max_keywords`, by non-increasing total; every keyword is both brand-free and trending; every frequency is `1 / len(filtered_keywords)`; the trend is the service's score (0 without one); the total is their sum |
| CompareKeywords.RankedByTrendAlone | compare_keywords.py:92-109 | two rows compare by total exactly as they compare by trend |

## Left out

- Browser automation, scrolling, sleeps, HTTP scraping and parsing, JSON encoding,
  request signing and secret loading are I/O. What they return is an input; the
  secret is an optional string.
- The thread pool of compare_keywords_cloud.py and collect_keywords_cloud.py is
  modelled as a sequential loop over the chunks. The futures are drained in
  submission order, so the merged result is the same.
- The date window comes from the wall clock and is not modelled. The service
  function receives only the keyword groups.
- Scores are `real`: IEEE rounding of the divisions and of the 0.7/0.3 blend is not
  modelled.
- `None` keywords are not modelled. A keyword is a string, and the `kw and` test
  becomes "not blank after stripping".
- Exceptions other than an HTTP error (network errors, malformed JSON, a missing
  `title` or `ratio`) are not modelled.
- The non-string brand entries skipped by `isinstance(brand, str)` cannot occur:
  brands are strings.
- `get_total_keywords` is not part of this model: the crawler's keyword list is an
  input of the calculators. The same holds for `get_brand_list`, the page reads of
  `get_top_keywords` and `get_related_keywords`, and the planner request of
  `get_trend_keywords`.
- The Streamlit pages (visualization_cloud.py, search_keywords.py), the UI blocks
  and the `__main__` print loops are presentation only.
- The missing `st` import in compare_keywords.py and the self-import in
  collect_keywords_cloud.py are import-time defects; the logic is modelled as if
  they were fixed.
- `NaverShoppingCrawler` (collect_keywords.py:13-187) defines no
  `get_total_keywords` at all, and its two callers expect different shapes: a list
  at collect_keywords_cloud.py:89 and a `(keywords, brands)` pair at
  compare_keywords_cloud.py:100. The model takes the keyword list as an input of
  each calculator.
- CompareKeywords.Calculator: Python lists the set intersection in an order of its
  own, so that order is an input (`listing`) required to enumerate the
  intersection once. The model states nothing about which keywords survive the
  `[:max_keywords]` cut.
- Frequency.RelativeFrequency: the pandas `value_counts` order of the dictionary is
  not modelled. The scores are a plain map, and only their lookup is used.
- CompareKeywordsCloud.RankedMeaning: does not state that no returned keyword
  contains a brand, because that is false. The filter runs before normalisation,
  and `CompareKeywordsCloud.BrandReappearsInKey` exhibits a key that contains a
  brand.
