/** The trend requests of the three scoring scripts: building the keyword groups of
    a chunk, reading the scores out of the reply, and merging the chunks. The
    DataLab service itself is a function parameter. */
module TrendFetch {
  import opened Text
  import opened Trend
  import opened Chunking

  /** The longest `groupName` sent: `kw[:19]`. */
  const GroupNameLimit := 19

  datatype KeywordGroup = KeywordGroup(groupName: string, keywords: seq<string>)

  /** One entry of `results`: its `title` and the `ratio` of each point of `data`. */
  datatype Item = Item(title: string, data: seq<real>)

  /** What `urlopen` gives: an `HTTPError`, or a response with a status code and the
      decoded `results` list (empty when the key is missing). */
  datatype Reply = HttpError | Response(code: int, results: seq<Item>)

  /** The trend service as seen by one request: the keyword groups in, a reply out. */
  type TrendApi = seq<KeywordGroup> -> Reply

  datatype Result<T> = Success(value: T) | HttpFailure

  /** A keyword is sent when something is left after stripping it (`kw and kw.strip()`). */
  predicate NotBlank(kw: string) {
    Strip(kw) != []
  }

  /** `{"groupName": kw[:19].strip(), "keywords": [kw.strip()]}`. */
  function GroupFor(kw: string): (g: KeywordGroup)
    ensures |g.groupName| <= GroupNameLimit
    ensures g.keywords == [Strip(kw)]
  {
    KeywordGroup(Strip(PyPrefix(kw, GroupNameLimit)), [Strip(kw)])
  }

  /** The `keyword_groups` list of a chunk: one group per non-blank keyword, in order. */
  function RequestGroups(chunk: seq<string>): (gs: seq<KeywordGroup>)
    ensures |gs| <= |chunk|
    ensures forall i :: 0 <= i < |gs| ==> |gs[i].groupName| <= GroupNameLimit
  {
    if chunk == [] then [] else RequestGroups(chunk[..|chunk| - 1]) + GroupOf(chunk[|chunk| - 1])
  }

  /** The group a single keyword adds to the request: none for a blank one. */
  function GroupOf(kw: string): seq<KeywordGroup> {
    if NotBlank(kw) then [GroupFor(kw)] else []
  }

  /** The number of non-blank keywords in the chunk. */
  function NonBlankCount(chunk: seq<string>): nat {
    if chunk == [] then 0
    else NonBlankCount(chunk[..|chunk| - 1]) + (if NotBlank(chunk[|chunk| - 1]) then 1 else 0)
  }

  /** One group per non-blank keyword: as many groups as non-blank keywords. */
  lemma {:induction false} RequestGroupsCount(chunk: seq<string>)
    ensures |RequestGroups(chunk)| == NonBlankCount(chunk)
  {
    if chunk != [] {
      RequestGroupsCount(chunk[..|chunk| - 1]);
    }
  }

  /** The groups of a concatenation are the groups of each part, in order. With
      `RequestGroupsSingle`, this fixes the request: the groups follow the order of
      their keywords in the chunk. */
  lemma {:induction false} RequestGroupsAppend(a: seq<string>, b: seq<string>)
    ensures RequestGroups(a + b) == RequestGroups(a) + RequestGroups(b)
    decreases |b|
  {
    if b != [] {
      var b' := b[..|b| - 1];
      RequestGroupsAppend(a, b');
      assert (a + b)[..|a + b| - 1] == a + b';
      assert (a + b)[|a + b| - 1] == b[|b| - 1];
    } else {
      assert a + b == a;
    }
  }

  /** A single keyword brings its own group, or none when it is blank. */
  lemma RequestGroupsSingle(kw: string)
    ensures NotBlank(kw) ==> RequestGroups([kw]) == [GroupFor(kw)]
    ensures !NotBlank(kw) ==> RequestGroups([kw]) == []
  {
    assert [kw][..0] == [];
  }

  /** Every group is that of a non-blank keyword of the chunk. */
  lemma {:induction false} RequestGroupsSound(chunk: seq<string>)
    ensures forall g :: g in RequestGroups(chunk) ==> exists kw :: kw in chunk && NotBlank(kw) && g == GroupFor(kw)
  {
    if chunk != [] {
      var pre := chunk[..|chunk| - 1];
      RequestGroupsSound(pre);
      assert chunk == pre + [chunk[|chunk| - 1]];
    }
  }

  /** Every non-blank keyword of the chunk has its group. */
  lemma RequestGroupsComplete(chunk: seq<string>)
    ensures forall kw :: kw in chunk && NotBlank(kw) ==> GroupFor(kw) in RequestGroups(chunk)
  {
    forall kw | kw in chunk && NotBlank(kw)
      ensures GroupFor(kw) in RequestGroups(chunk)
    {
      KeywordHasGroup(chunk, kw);
    }
  }

  lemma KeywordHasGroup(chunk: seq<string>, kw: string)
    requires kw in chunk && NotBlank(kw)
    ensures GroupFor(kw) in RequestGroups(chunk)
  {
    var i :| 0 <= i < |chunk| && chunk[i] == kw;
    var pre, post := chunk[..i], chunk[i + 1..];
    assert chunk == (pre + [kw]) + post;
    RequestGroupsAppend(pre + [kw], post);
    RequestGroupsAppend(pre, [kw]);
    RequestGroupsSingle(kw);
    assert RequestGroups(pre + [kw]) == RequestGroups(pre) + [GroupFor(kw)];
  }

  /** A keyword of at most 19 characters without whitespace is its own group name. */
  lemma PlainKeywordNamesItself(kw: string)
    requires NoSpace(kw) && |kw| <= GroupNameLimit
    ensures GroupFor(kw) == KeywordGroup(kw, [kw])
  {
    StripNoSpace(kw);
  }

  /** A keyword longer than 19 characters is never its own group name. */
  lemma LongKeywordRenamed(kw: string)
    requires |kw| > GroupNameLimit
    ensures GroupFor(kw).groupName != kw
  {
  }

  /** `scores[item["title"]] = score(item["data"])` for each item in order, on top of
      `scores`. */
  function ScoreInto<V>(scores: map<string, V>, items: seq<Item>, score: seq<real> -> V): map<string, V> {
    if items == [] then scores
    else
      var last := items[|items| - 1];
      ScoreInto(scores, items[..|items| - 1], score)[last.title := score(last.data)]
  }

  function ScoreItems<V>(items: seq<Item>, score: seq<real> -> V): map<string, V> {
    ScoreInto(map[], items, score)
  }

  /** Writing the items into `scores` is `scores.update` with the items' own map. */
  lemma {:induction false} ScoreIntoUpdate<V>(scores: map<string, V>, items: seq<Item>, score: seq<real> -> V)
    ensures ScoreInto(scores, items, score) == scores + ScoreItems(items, score)
  {
    if items != [] {
      ScoreIntoUpdate(scores, items[..|items| - 1], score);
      ScoreIntoUpdate(map[], items[..|items| - 1], score);
    }
  }

  /** The keys are the titles of the reply. */
  lemma {:induction false} ScoreItemsKeys<V>(items: seq<Item>, score: seq<real> -> V)
    ensures forall k :: k in ScoreItems(items, score) <==> exists i :: 0 <= i < |items| && items[i].title == k
  {
    if items != [] {
      var pre := items[..|items| - 1];
      ScoreItemsKeys(pre, score);
      forall k
        ensures k in ScoreItems(items, score) <==> exists i :: 0 <= i < |items| && items[i].title == k
      {
        if k in ScoreItems(pre, score) {
          var i :| 0 <= i < |pre| && pre[i].title == k;
          assert items[i].title == k;
        }
        if i :| 0 <= i < |items| && items[i].title == k {
          if i < |pre| {
            assert pre[i].title == k;
          }
        }
      }
    }
  }

  /** An item whose title does not come again later keeps its own score: a repeated
      title keeps the score of its last item. */
  lemma {:induction false} ScoreItemsLastWins<V>(items: seq<Item>, score: seq<real> -> V, i: nat)
    requires i < |items|
    requires forall j :: i < j < |items| ==> items[j].title != items[i].title
    ensures items[i].title in ScoreItems(items, score)
    ensures ScoreItems(items, score)[items[i].title] == score(items[i].data)
  {
    if i < |items| - 1 {
      var pre := items[..|items| - 1];
      ScoreItemsLastWins(pre, score, i);
    }
  }

  /** The loop over `result.get("results", [])`, writing into `scores`. */
  method ScoreResults<V>(scores0: map<string, V>, items: seq<Item>, score: seq<real> -> V) returns (scores: map<string, V>)
    ensures scores == scores0 + ScoreItems(items, score)
  {
    scores := scores0;
    var i := 0;
    while i < |items|
      invariant 0 <= i <= |items|
      invariant scores == ScoreInto(scores0, items[..i], score)
    {
      var item := items[i];
      scores := scores[item.title := score(item.data)];
      assert items[..i + 1][..i] == items[..i];
      i := i + 1;
    }
    assert items[..i] == items;
    ScoreIntoUpdate(scores0, items, score);
  }

  /** The chunk result of compare_keywords_cloud.py's `fetch_trend_score`: there is
      no handler, so an HTTP error escapes; any response is read, whatever its code. */
  function PairChunk(api: TrendApi, chunk: seq<string>): Result<map<string, TrendPair>> {
    match api(RequestGroups(chunk))
    case HttpError => HttpFailure
    case Response(_, results) => Success(ScoreItems(results, PairScore))
  }

  /** The chunk result of the other two scripts: an HTTP error or a status other than
      200 gives an empty map. */
  function GuardedChunk(api: TrendApi, chunk: seq<string>): map<string, real> {
    GuardedReply(api(RequestGroups(chunk)))
  }

  /** The scores read from one reply by the guarded variants. */
  function GuardedReply(reply: Reply): map<string, real> {
    if reply.Response? && reply.code == 200 then ScoreItems(reply.results, RecentRatio) else map[]
  }

  method FetchTrendPair(api: TrendApi, chunk: seq<string>) returns (r: Result<map<string, TrendPair>>)
    ensures r == PairChunk(api, chunk)
    ensures r.Success? <==> !api(RequestGroups(chunk)).HttpError?
  {
    var keywordGroups := RequestGroups(chunk);
    var reply := api(keywordGroups);
    if reply.HttpError? {
      return HttpFailure;
    }
    var scores := ScoreResults(map[], reply.results, PairScore);
    assert map[] + ScoreItems(reply.results, PairScore) == ScoreItems(reply.results, PairScore);
    return Success(scores);
  }

  method FetchTrendGuarded(api: TrendApi, chunk: seq<string>) returns (scores: map<string, real>)
    ensures scores == GuardedChunk(api, chunk)
    ensures !(api(RequestGroups(chunk)).Response? && api(RequestGroups(chunk)).code == 200) ==> scores == map[]
  {
    var keywordGroups := RequestGroups(chunk);
    scores := map[];
    var reply := api(keywordGroups);
    if reply.Response? && reply.code == 200 {
      scores := ScoreResults(scores, reply.results, RecentRatio);
      assert map[] + ScoreItems(reply.results, RecentRatio) == ScoreItems(reply.results, RecentRatio);
    }
  }

  /** The parts of the guarded variants, one per chunk in order. */
  function GuardedParts(api: TrendApi, cs: seq<seq<string>>): (parts: seq<map<string, real>>)
    ensures |parts| == |cs|
  {
    seq(|cs|, j requires 0 <= j < |cs| => GuardedChunk(api, cs[j]))
  }

  /** The merged trend scores of collect_keywords_cloud.py and compare_keywords.py. */
  function GuardedTrends(api: TrendApi, keywords: seq<string>): map<string, real> {
    MergeAll(GuardedParts(api, Chunks(keywords)))
  }

  /** The map a chunk contributes to compare_keywords_cloud.py's merge (none when
      its request failed). */
  function PairPart(api: TrendApi, chunk: seq<string>): map<string, TrendPair> {
    match PairChunk(api, chunk)
    case Success(p) => p
    case HttpFailure => map[]
  }

  function PairParts(api: TrendApi, cs: seq<seq<string>>): (parts: seq<map<string, TrendPair>>)
    ensures |parts| == |cs|
  {
    seq(|cs|, j requires 0 <= j < |cs| => PairPart(api, cs[j]))
  }

  /** The merged trend pairs of compare_keywords_cloud.py: a failure when any chunk
      fails, else the chunk maps merged in order with `scores.update`, as `MergeAll`
      merges them (`PairTrendsMergeAll`), so a later chunk overwrites an earlier one. */
  function PairTrends(api: TrendApi, cs: seq<seq<string>>): Result<map<string, TrendPair>> {
    if cs == [] then Success(map[])
    else
      var pre := cs[..|cs| - 1];
      match PairTrends(api, pre)
      case HttpFailure => HttpFailure
      case Success(m) =>
        match PairChunk(api, cs[|cs| - 1])
        case HttpFailure => HttpFailure
        case Success(p) => Success(m + p)
  }

  /** A successful merge is `MergeAll` of the chunk maps, so the overwrite rule of
      `dict.update` holds of it. */
  lemma {:induction false} PairTrendsMergeAll(api: TrendApi, cs: seq<seq<string>>)
    requires PairTrends(api, cs).Success?
    ensures PairTrends(api, cs).value == MergeAll(PairParts(api, cs))
  {
    if cs != [] {
      var pre := cs[..|cs| - 1];
      PairTrendsMergeAll(api, pre);
      PairPartsPrefix(api, cs);
    }
  }

  lemma PairPartsPrefix(api: TrendApi, cs: seq<seq<string>>)
    requires cs != []
    ensures PairParts(api, cs)[..|cs| - 1] == PairParts(api, cs[..|cs| - 1])
    ensures PairParts(api, cs)[|cs| - 1] == PairPart(api, cs[|cs| - 1])
  {
  }

  /** Chunk `j` is the last chunk whose reply scored `k`. */
  predicate LastChunkWith(api: TrendApi, cs: seq<seq<string>>, j: int, k: string) {
    && 0 <= j < |cs| && k in PairParts(api, cs)[j]
    && forall j' :: j < j' < |cs| ==> k !in PairParts(api, cs)[j']
  }

  /** After a successful merge, a keyword has a trend pair iff some chunk's reply
      scored it, and it takes the pair of the last chunk that did. */
  lemma PairTrendsMerged(api: TrendApi, cs: seq<seq<string>>, k: string)
    requires PairTrends(api, cs).Success?
    ensures k in PairTrends(api, cs).value <==> exists j :: 0 <= j < |cs| && k in PairParts(api, cs)[j]
    ensures forall j :: LastChunkWith(api, cs, j, k) ==> PairTrends(api, cs).value[k] == PairChunk(api, cs[j]).value[k]
  {
    var parts := PairParts(api, cs);
    PairTrendsMergeAll(api, cs);
    MergeAllKeys(parts);
    forall j | LastChunkWith(api, cs, j, k)
      ensures PairTrends(api, cs).value[k] == PairChunk(api, cs[j]).value[k]
    {
      PairTrendsSucceeded(api, cs, j);
      LastPartWins(parts, j, k);
    }
  }

  /** `calculate_trend_scores` of compare_keywords_cloud.py: the chunk futures are
      drained in submission order; the first failure propagates. */
  method CalculateTrendPairs(api: TrendApi, keywords: seq<string>) returns (r: Result<map<string, TrendPair>>)
    ensures r == PairTrends(api, Chunks(keywords))
  {
    var cs := Chunks(keywords);
    var scores: map<string, TrendPair> := map[];
    var j := 0;
    while j < |cs|
      invariant 0 <= j <= |cs|
      invariant PairTrends(api, cs[..j]) == Success(scores)
    {
      var part := FetchTrendPair(api, cs[j]);
      PairStep(api, cs, j, scores);
      if part.HttpFailure? {
        PrefixFailure(api, cs, j + 1);
        return HttpFailure;
      }
      scores := scores + part.value;
      j := j + 1;
    }
    assert cs[..j] == cs;
    return Success(scores);
  }

  /** One more chunk: its failure fails the merge, else its map is merged last. */
  lemma PairStep(api: TrendApi, cs: seq<seq<string>>, j: nat, scores: map<string, TrendPair>)
    requires j < |cs| && PairTrends(api, cs[..j]) == Success(scores)
    ensures PairChunk(api, cs[j]).HttpFailure? ==> PairTrends(api, cs[..j + 1]).HttpFailure?
    ensures PairChunk(api, cs[j]).Success? ==>
      PairTrends(api, cs[..j + 1]) == Success(scores + PairChunk(api, cs[j]).value)
  {
    assert cs[..j + 1][..j] == cs[..j];
    assert cs[..j + 1][j] == cs[j];
  }

  /** The merge fails exactly when the request of some chunk fails. */
  lemma PairTrendsFailure(api: TrendApi, cs: seq<seq<string>>)
    ensures PairTrends(api, cs).HttpFailure? <==> exists j :: 0 <= j < |cs| && PairChunk(api, cs[j]).HttpFailure?
  {
    if PairTrends(api, cs).HttpFailure? {
      PairTrendsFailed(api, cs);
    } else {
      forall j | 0 <= j < |cs|
        ensures !PairChunk(api, cs[j]).HttpFailure?
      {
        PairTrendsSucceeded(api, cs, j);
      }
    }
  }

  lemma {:induction false} PairTrendsFailed(api: TrendApi, cs: seq<seq<string>>)
    requires PairTrends(api, cs).HttpFailure?
    ensures exists j :: 0 <= j < |cs| && PairChunk(api, cs[j]).HttpFailure?
  {
    var pre := cs[..|cs| - 1];
    if PairTrends(api, pre).HttpFailure? {
      PairTrendsFailed(api, pre);
      var j :| 0 <= j < |pre| && PairChunk(api, pre[j]).HttpFailure?;
      assert cs[j] == pre[j];
    } else {
      assert PairChunk(api, cs[|cs| - 1]).HttpFailure?;
    }
  }

  lemma {:induction false} PairTrendsSucceeded(api: TrendApi, cs: seq<seq<string>>, j: nat)
    requires PairTrends(api, cs).Success? && j < |cs|
    ensures PairChunk(api, cs[j]).Success?
    decreases |cs|
  {
    PairTrendsLast(api, cs);
    if j < |cs| - 1 {
      var pre := cs[..|cs| - 1];
      PairTrendsSucceeded(api, pre, j);
      assert cs[j] == pre[j];
    }
  }

  /** A successful merge succeeded on the chunks before the last one and on the last. */
  lemma PairTrendsLast(api: TrendApi, cs: seq<seq<string>>)
    requires cs != [] && PairTrends(api, cs).Success?
    ensures PairTrends(api, cs[..|cs| - 1]).Success?
    ensures PairChunk(api, cs[|cs| - 1]).Success?
  {
  }

  lemma PrefixFailure(api: TrendApi, cs: seq<seq<string>>, n: nat)
    requires n <= |cs| && PairTrends(api, cs[..n]).HttpFailure?
    ensures PairTrends(api, cs).HttpFailure?
  {
    PairTrendsFailure(api, cs[..n]);
    var j :| 0 <= j < n && PairChunk(api, cs[..n][j]).HttpFailure?;
    assert cs[..n][j] == cs[j];
    PairTrendsFailure(api, cs);
  }

  /** `calculate_trend_scores` of collect_keywords_cloud.py: each future yields a map,
      empty when its request failed, merged in submission order. */
  method CalculateTrendScoresPooled(api: TrendApi, keywords: seq<string>) returns (scores: map<string, real>)
    ensures scores == GuardedTrends(api, keywords)
  {
    var cs := Chunks(keywords);
    var parts := GuardedParts(api, cs);
    scores := map[];
    var j := 0;
    while j < |cs|
      invariant 0 <= j <= |cs|
      invariant scores == MergeAll(parts[..j])
    {
      var part := FetchTrendGuarded(api, cs[j]);
      assert part == parts[j];
      MergeStep(parts, j, scores);
      scores := scores + part;
      j := j + 1;
    }
    assert parts[..j] == parts;
  }

  /** `calculate_trend_scores` of compare_keywords.py: an index loop over the chunk
      starts `0, 5, 10, ...`, writing each reply's items straight into `scores`; a
      failed chunk adds nothing and the loop goes on. */
  method CalculateTrendScoresSequential(api: TrendApi, keywords: seq<string>) returns (scores: map<string, real>)
    ensures scores == GuardedTrends(api, keywords)
  {
    ghost var cs := Chunks(keywords);
    ghost var parts := GuardedParts(api, cs);
    scores := map[];
    var i := 0;
    ghost var c := 0;
    while i < |keywords|
      invariant c <= |cs| && i == ChunkSize * c
      invariant c < |cs| <==> i < |keywords|
      invariant scores == MergeAll(parts[..c])
    {
      var keywordChunk := keywords[i..Min(i + ChunkSize, |keywords|)];
      ChunkAt(keywords, c, i);
      ghost var before := scores;
      scores := ScoreChunkInto(api, scores, keywordChunk);
      MergeStep(parts, c, before);
      i := i + ChunkSize;
      c := c + 1;
    }
    assert parts[..c] == parts;
  }

  /** The body of the loop above: one request for the chunk, whose items, when it
      answers 200, are written straight into `scores`. */
  method ScoreChunkInto(api: TrendApi, scores0: map<string, real>, keywordChunk: seq<string>) returns (scores: map<string, real>)
    ensures scores == scores0 + GuardedChunk(api, keywordChunk)
  {
    var keywordGroups := RequestGroups(keywordChunk);
    var reply := api(keywordGroups);
    scores := scores0;
    if reply.Response? && reply.code == 200 {
      scores := ScoreResults(scores, reply.results, RecentRatio);
    } else {
      assert scores == scores0 + map[];
    }
  }

  lemma MergeStep(parts: seq<map<string, real>>, c: nat, before: map<string, real>)
    requires c < |parts| && before == MergeAll(parts[..c])
    ensures before + parts[c] == MergeAll(parts[..c + 1])
  {
    assert parts[..c + 1][..c] == parts[..c];
  }

  lemma SplitAround<T>(s: seq<T>, j: nat)
    requires j < |s|
    ensures s == s[..j] + [s[j]] + s[j + 1..]
  {
  }

  /** A chunk whose request fails contributes nothing: the merged scores are those of
      the other chunks. */
  lemma FailedChunkIgnored(api: TrendApi, keywords: seq<string>, j: nat)
    requires j < |Chunks(keywords)|
    requires !(api(RequestGroups(Chunks(keywords)[j])).Response? && api(RequestGroups(Chunks(keywords)[j])).code == 200)
    ensures GuardedTrends(api, keywords)
      == MergeAll(GuardedParts(api, Chunks(keywords))[..j] + GuardedParts(api, Chunks(keywords))[j + 1..])
  {
    var parts := GuardedParts(api, Chunks(keywords));
    assert parts[j] == map[];
    SplitAround(parts, j);
    EmptyPartNeutral(parts[..j], parts[j + 1..]);
  }

  /** The service answers only with titles that are group names of the request, as
      the DataLab API does. */
  ghost predicate TitlesAreGroupNames(api: TrendApi) {
    forall gs: seq<KeywordGroup>, it: Item :: api(gs).Response? && it in api(gs).results ==>
      exists g :: g in gs && g.groupName == it.title
  }

  /** With such a service, every key of a chunk's scores is a group name, so it has
      at most 19 characters. */
  lemma ChunkKeysAreGroupNames(api: TrendApi, chunk: seq<string>, k: string)
    requires TitlesAreGroupNames(api)
    ensures k in GuardedChunk(api, chunk) ==> |k| <= GroupNameLimit
    ensures PairChunk(api, chunk).Success? && k in PairChunk(api, chunk).value ==> |k| <= GroupNameLimit
  {
    var gs := RequestGroups(chunk);
    var reply := api(gs);
    if reply.Response? {
      ScoreItemsKeys(reply.results, RecentRatio);
      ScoreItemsKeys(reply.results, PairScore);
      if i :| 0 <= i < |reply.results| && reply.results[i].title == k {
        assert reply.results[i] in reply.results;
        var g :| g in gs && g.groupName == k;
      }
    }
  }

  /** With such a service, a keyword longer than 19 characters never gets a trend
      score: its scores are stored under the truncated group name. */
  lemma LongKeywordHasNoTrend(api: TrendApi, keywords: seq<string>, kw: string)
    requires TitlesAreGroupNames(api) && |kw| > GroupNameLimit
    ensures kw !in GuardedTrends(api, keywords)
  {
    var cs := Chunks(keywords);
    var parts := GuardedParts(api, cs);
    forall j | 0 <= j < |parts|
      ensures kw !in parts[j]
    {
      ChunkKeysAreGroupNames(api, cs[j], kw);
    }
    MergeAllKeys(parts);
  }

  /** The same for the pair scores of compare_keywords_cloud.py. */
  lemma {:induction false} LongKeywordHasNoTrendPair(api: TrendApi, cs: seq<seq<string>>, kw: string)
    requires TitlesAreGroupNames(api) && |kw| > GroupNameLimit
    requires PairTrends(api, cs).Success?
    ensures kw !in PairTrends(api, cs).value
  {
    if cs != [] {
      LongKeywordHasNoTrendPair(api, cs[..|cs| - 1], kw);
      ChunkKeysAreGroupNames(api, cs[|cs| - 1], kw);
    }
  }

  /** The service answers every request with status 200 and an item for every group. */
  ghost predicate AnswersEveryGroup(api: TrendApi) {
    forall gs: seq<KeywordGroup> :: api(gs).Response? && api(gs).code == 200
      && forall g :: g in gs ==> exists it :: it in api(gs).results && it.title == g.groupName
  }

  /** With such a service, every keyword of at most 19 characters without whitespace
      gets a trend score. */
  lemma PlainKeywordHasTrend(api: TrendApi, keywords: seq<string>, kw: string)
    requires AnswersEveryGroup(api)
    requires kw in keywords && kw != [] && NoSpace(kw) && |kw| <= GroupNameLimit
    ensures kw in GuardedTrends(api, keywords)
  {
    var cs := Chunks(keywords);
    InSomeChunk(keywords, kw);
    var j :| 0 <= j < |cs| && kw in cs[j];
    PlainKeywordInChunk(api, cs[j], kw);
    assert kw in GuardedParts(api, cs)[j];
    MergeAllKeys(GuardedParts(api, cs));
  }

  lemma PlainKeywordInChunk(api: TrendApi, chunk: seq<string>, kw: string)
    requires AnswersEveryGroup(api)
    requires kw in chunk && kw != [] && NoSpace(kw) && |kw| <= GroupNameLimit
    ensures kw in GuardedChunk(api, chunk)
  {
    PlainKeywordNamesItself(kw);
    StripNoSpace(kw);
    assert NotBlank(kw);
    RequestGroupsComplete(chunk);
    var gs := RequestGroups(chunk);
    assert KeywordGroup(kw, [kw]) in gs;
    var reply := api(gs);
    var it :| it in reply.results && it.title == kw;
    ScoreItemsKeys(reply.results, RecentRatio);
    var i :| 0 <= i < |reply.results| && reply.results[i] == it;
  }
}
