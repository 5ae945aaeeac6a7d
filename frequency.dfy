/** Frequency scores: the max-normalised match count of the cloud scripts
    (`calculate_frequency_score` in compare_keywords_cloud.py and
    collect_keywords_cloud.py, which are the same code) and the relative
    frequency `count / total` of compare_keywords.py. */
module Frequency {
  import opened Text
  import opened OrderedDicts
  import opened Grouping

  /** `pattern.search(keyword)` where the pattern is the alternation of the escaped
      members: some member occurs in the keyword. */
  predicate Matches(members: seq<string>, kw: string) {
    exists m :: m in members && IsSubstring(m, kw)
  }

  /** How many keywords (with repetitions) match some member of the group. */
  function CountMatching(kws: seq<string>, members: seq<string>): nat {
    if kws == [] then 0
    else CountMatching(kws[..|kws| - 1], members) + (if Matches(members, kws[|kws| - 1]) then 1 else 0)
  }

  /** `n / d` for counts, as a real number. */
  function Ratio(n: nat, d: nat): real
    requires d > 0
  {
    n as real / d as real
  }

  lemma RatioBounds(n: nat, d: nat)
    requires 1 <= n <= d
    ensures 0.0 < Ratio(n, d) <= 1.0
    ensures n == d ==> Ratio(n, d) == 1.0
  {
  }

  lemma RatioAdd(a: nat, b: nat, d: nat)
    requires d > 0
    ensures Ratio(a, d) + Ratio(b, d) == Ratio(a + b, d)
  {
  }

  /** A `Counter` lookup: a missing key counts zero. */
  function Get(counts: Dict<nat>, c: string): nat {
    if c in counts.entries then counts.entries[c] else 0
  }

  /** `category_counts[category] += 1`. */
  function Increment(counts: Dict<nat>, c: string): (r: Dict<nat>)
    requires counts.Valid()
    ensures r.Valid()
  {
    Assign(counts, c, Get(counts, c) + 1)
  }

  predicate Distinct(s: seq<string>) {
    forall i, j :: 0 <= i < j < |s| ==> s[i] != s[j]
  }

  /** The inner loop for one keyword: visit the categories in order and count the
      keyword for each category whose pattern it matches. */
  function TallyKeyword(counts: Dict<nat>, groups: Dict<seq<string>>, cats: seq<string>, kw: string): (r: Dict<nat>)
    requires counts.Valid()
    requires forall i :: 0 <= i < |cats| ==> cats[i] in groups.entries
    ensures r.Valid()
  {
    if cats == [] then counts
    else
      var before := TallyKeyword(counts, groups, cats[..|cats| - 1], kw);
      var c := cats[|cats| - 1];
      if Matches(groups.entries[c], kw) then Increment(before, c) else before
  }

  /** The outer loop over the keywords, with the grouping's key order for the
      inner loop. */
  function Tally(kws: seq<string>, groups: Dict<seq<string>>): (r: Dict<nat>)
    requires groups.Valid()
    ensures r.Valid()
  {
    if kws == [] then Empty()
    else TallyKeyword(Tally(kws[..|kws| - 1], groups), groups, groups.keys, kws[|kws| - 1])
  }

  /** One pass of the inner loop adds one to each category whose pattern the
      keyword matches and leaves every other count alone. */
  lemma {:induction false} TallyKeywordEffect(counts: Dict<nat>, groups: Dict<seq<string>>, cats: seq<string>, kw: string)
    requires counts.Valid() && Distinct(cats)
    requires forall i :: 0 <= i < |cats| ==> cats[i] in groups.entries
    ensures forall c :: (c in TallyKeyword(counts, groups, cats, kw).entries <==>
      c in counts.entries || (c in cats && Matches(groups.entries[c], kw)))
    ensures forall c :: (Get(TallyKeyword(counts, groups, cats, kw), c) ==
      Get(counts, c) + (if c in cats && Matches(groups.entries[c], kw) then 1 else 0))
  {
    if cats != [] {
      var pre := cats[..|cats| - 1];
      var last := cats[|cats| - 1];
      TallyKeywordEffect(counts, groups, pre, kw);
      assert cats == pre + [last];
      assert last !in pre;
      forall c
        ensures c in cats <==> c in pre || c == last
      {
      }
    }
  }

  /** The Counter holds, for every category, the number of keywords that match its
      pattern, and holds exactly the categories matched at least once. */
  lemma {:induction false} TallyCounts(kws: seq<string>, groups: Dict<seq<string>>)
    requires groups.Valid()
    ensures forall c :: (c in Tally(kws, groups).entries <==>
      c in groups.entries && CountMatching(kws, groups.entries[c]) > 0)
    ensures forall c :: c in groups.entries ==>
      Get(Tally(kws, groups), c) == CountMatching(kws, groups.entries[c])
  {
    if kws != [] {
      var pre := kws[..|kws| - 1];
      TallyCounts(pre, groups);
      TallyKeywordEffect(Tally(pre, groups), groups, groups.keys, kws[|kws| - 1]);
    }
  }

  /** A keyword is counted for its own group: every member contains itself. */
  lemma {:induction false} OwnGroupCounted(kws: seq<string>, k: string)
    requires k in Groups(kws).entries
    ensures CountMatching(kws, Groups(kws).entries[k]) >= 1
  {
    GroupsContents(kws);
    MembersMeaning(kws, k);
    var x := Members(kws, k)[0];
    SubstringOfItself(x);
    assert Matches(Members(kws, k), x);
    CountAtLeastOne(kws, Members(kws, k), x);
  }

  lemma {:induction false} CountAtLeastOne(kws: seq<string>, members: seq<string>, x: string)
    requires x in kws && Matches(members, x)
    ensures CountMatching(kws, members) >= 1
  {
    var pre := kws[..|kws| - 1];
    if kws[|kws| - 1] != x {
      assert kws == pre + [kws[|kws| - 1]];
      CountAtLeastOne(pre, members, x);
    }
  }

  /** The largest value of the given keys. */
  function MaxValue(keys: seq<string>, m: map<string, nat>): nat
    requires forall i :: 0 <= i < |keys| ==> keys[i] in m
  {
    if keys == [] then 0 else Max(m[keys[0]], MaxValue(keys[1..], m))
  }

  lemma {:induction false} MaxValueBounds(keys: seq<string>, m: map<string, nat>)
    requires forall i :: 0 <= i < |keys| ==> keys[i] in m
    ensures forall i :: 0 <= i < |keys| ==> m[keys[i]] <= MaxValue(keys, m)
    ensures keys != [] ==> exists i :: 0 <= i < |keys| && m[keys[i]] == MaxValue(keys, m)
  {
    if keys != [] {
      MaxValueBounds(keys[1..], m);
      if MaxValue(keys[1..], m) > m[keys[0]] {
        var i :| 0 <= i < |keys[1..]| && m[keys[1..][i]] == MaxValue(keys[1..], m);
        assert m[keys[i + 1]] == MaxValue(keys, m);
      }
    }
  }

  /** `max(category_counts.values()) if category_counts else 1`. */
  function MaxFreq(counts: Dict<nat>): nat
    requires counts.Valid()
  {
    if counts.keys == [] then 1 else MaxValue(counts.keys, counts.entries)
  }

  /** The normalising divisor of the specification: the largest match count over
      the groups of `kws`, or 1 when there is no group. */
  function LargestMatchCount(kws: seq<string>): nat {
    var g := Groups(kws);
    if g.keys == [] then 1
    else MaxValue(g.keys, map c | c in g.entries :: CountMatching(kws, g.entries[c]))
  }

  /** The Counter that the cloud scripts fill, taken over the grouping of the
      keywords themselves. */
  function Counts(kws: seq<string>): (r: Dict<nat>)
    ensures r.Valid()
  {
    Tally(kws, Groups(kws))
  }

  /** The Counter's values and its maximum agree with the specification's match
      counts: same keys as the grouping, the same numbers, the same maximum. */
  lemma CountsMeaning(kws: seq<string>)
    ensures forall c :: c in Counts(kws).entries <==> c in Groups(kws).entries
    ensures forall c :: c in Counts(kws).entries ==>
      Counts(kws).entries[c] == CountMatching(kws, Groups(kws).entries[c]) >= 1
    ensures MaxFreq(Counts(kws)) == LargestMatchCount(kws) >= 1
  {
    var g := Groups(kws);
    var counts := Counts(kws);
    TallyCounts(kws, g);
    forall c | c in g.entries
      ensures c in counts.entries && counts.entries[c] == CountMatching(kws, g.entries[c]) >= 1
    {
      OwnGroupCounted(kws, c);
    }
    var matchCounts := map c | c in g.entries :: CountMatching(kws, g.entries[c]);
    assert counts.entries == matchCounts;
    SameKeySetMax(counts.keys, g.keys, matchCounts);
    if counts.keys != [] {
      MaxValueBounds(counts.keys, matchCounts);
    }
  }

  /** The maximum over two duplicate-free listings of the same keys is the same. */
  lemma SameKeySetMax(a: seq<string>, b: seq<string>, m: map<string, nat>)
    requires Distinct(a) && Distinct(b)
    requires forall i :: 0 <= i < |a| ==> a[i] in m
    requires forall i :: 0 <= i < |b| ==> b[i] in m
    requires forall x :: x in a <==> x in b
    ensures |a| == |b| && (a == [] <==> b == [])
    ensures MaxValue(a, m) == MaxValue(b, m)
  {
    DistinctSameSetSameSize(a, b);
    MaxValueBounds(a, m);
    MaxValueBounds(b, m);
    if a != [] {
      var i :| 0 <= i < |a| && m[a[i]] == MaxValue(a, m);
      var j :| 0 <= j < |b| && m[b[j]] == MaxValue(b, m);
      assert a[i] in b && b[j] in a;
    }
  }

  lemma DistinctSameSetSameSize(a: seq<string>, b: seq<string>)
    requires Distinct(a) && Distinct(b)
    requires forall x :: x in a <==> x in b
    ensures |a| == |b|
  {
    DistinctCard(a);
    DistinctCard(b);
    assert (set x | x in a) == (set x | x in b);
  }

  lemma {:induction false} DistinctCard(a: seq<string>)
    requires Distinct(a)
    ensures |set x | x in a| == |a|
  {
    if a != [] {
      var pre := a[..|a| - 1];
      DistinctCard(pre);
      assert (set x | x in a) == (set x | x in pre) + {a[|a| - 1]};
      assert a[|a| - 1] !in pre;
    }
  }

  /** `{word: freq / max_freq for word, freq in category_counts.items()}`. */
  function Normalized(counts: Dict<nat>): (r: Dict<real>)
    requires counts.Valid() && MaxFreq(counts) > 0
    ensures r.Valid()
  {
    Dict(counts.keys, map w | w in counts.entries :: Ratio(counts.entries[w], MaxFreq(counts)))
  }

  /** The score dictionary of the cloud scripts for `kws`. */
  function FrequencyScores(kws: seq<string>): (r: Dict<real>)
    ensures r.Valid()
  {
    CountsMeaning(kws);
    Normalized(Counts(kws))
  }

  /** Dividing positive counts by their maximum gives scores in (0, 1], and the
      largest count scores exactly 1. */
  lemma NormalizedBounds(counts: Dict<nat>)
    requires counts.Valid()
    requires forall c :: c in counts.entries ==> counts.entries[c] >= 1
    ensures MaxFreq(counts) >= 1
    ensures forall k :: k in Normalized(counts).entries ==> 0.0 < Normalized(counts).entries[k] <= 1.0
    ensures counts.keys != [] ==>
      exists k :: k in Normalized(counts).entries && Normalized(counts).entries[k] == 1.0
  {
    var top := MaxFreq(counts);
    var r := Normalized(counts);
    MaxValueBounds(counts.keys, counts.entries);
    forall k | k in r.entries
      ensures 0.0 < r.entries[k] <= 1.0
    {
      assert k in counts.keys;
      RatioBounds(counts.entries[k], top);
    }
    if counts.keys != [] {
      var i :| 0 <= i < |counts.keys| && counts.entries[counts.keys[i]] == top;
      RatioBounds(top, top);
      assert r.entries[counts.keys[i]] == 1.0;
    }
  }

  /** The frequency scores cover exactly the group keys, in the Counter's order;
      each is the group's match count over the largest match count, so it lies in
      (0, 1], and some group scores exactly 1 unless no keyword was kept. */
  lemma FrequencyScoresMeaning(kws: seq<string>)
    ensures LargestMatchCount(kws) >= 1
    ensures FrequencyScores(kws).keys == Counts(kws).keys
    ensures forall k :: k in FrequencyScores(kws).entries <==> k in Groups(kws).entries
    ensures forall k :: k in FrequencyScores(kws).entries ==>
      FrequencyScores(kws).entries[k] == Ratio(CountMatching(kws, Groups(kws).entries[k]), LargestMatchCount(kws))
    ensures forall k :: k in FrequencyScores(kws).entries ==> 0.0 < FrequencyScores(kws).entries[k] <= 1.0
    ensures FrequencyScores(kws).keys != [] ==>
      exists k :: k in FrequencyScores(kws).entries && FrequencyScores(kws).entries[k] == 1.0
    ensures FrequencyScores(kws).keys == [] <==> KeptKeywords(kws) == []
  {
    var counts := Counts(kws);
    var g := Groups(kws);
    var scores := FrequencyScores(kws);
    CountsMeaning(kws);
    assert scores == Normalized(counts);
    NormalizedBounds(counts);
    forall k | k in scores.entries
      ensures scores.entries[k] == Ratio(CountMatching(kws, g.entries[k]), LargestMatchCount(kws))
    {
    }
    KeptIffGroups(kws);
    DistinctSameSetSameSize(counts.keys, g.keys);
  }

  /** `calculate_frequency_score` of the cloud scripts: group the keywords, count
      for every group the keywords that contain one of its members, and divide by
      the largest count. */
  method FrequencyScore(keywords: seq<string>) returns (scores: Dict<real>)
    ensures scores == FrequencyScores(keywords)
    ensures forall k :: k in scores.entries <==> k in Groups(keywords).entries
    ensures forall k :: k in scores.entries ==> 0.0 < scores.entries[k] <= 1.0
    ensures scores.keys != [] ==> exists k :: k in scores.entries && scores.entries[k] == 1.0
    ensures scores.keys == [] <==> KeptKeywords(keywords) == []
  {
    var groups := GroupByKey(keywords);
    var counts: Dict<nat> := Empty();
    var i := 0;
    while i < |keywords|
      invariant 0 <= i <= |keywords|
      invariant counts == Tally(keywords[..i], groups)
    {
      counts := CountKeyword(counts, groups, keywords[i]);
      assert keywords[..i + 1][..i] == keywords[..i];
      i := i + 1;
    }
    assert keywords[..i] == keywords;
    CountsMeaning(keywords);
    var maxFreq := MaxFreq(counts);
    scores := Dict(counts.keys, map w | w in counts.entries :: Ratio(counts.entries[w], maxFreq));
    FrequencyScoresMeaning(keywords);
  }

  /** The inner loop of `calculate_frequency_score` for one keyword. */
  method CountKeyword(counts0: Dict<nat>, groups: Dict<seq<string>>, keyword: string) returns (counts: Dict<nat>)
    requires counts0.Valid() && groups.Valid()
    ensures counts == TallyKeyword(counts0, groups, groups.keys, keyword)
    ensures forall c :: c in groups.entries ==>
      Get(counts, c) == Get(counts0, c) + (if Matches(groups.entries[c], keyword) then 1 else 0)
  {
    counts := counts0;
    var j := 0;
    while j < |groups.keys|
      invariant 0 <= j <= |groups.keys|
      invariant counts == TallyKeyword(counts0, groups, groups.keys[..j], keyword)
    {
      var category := groups.keys[j];
      if Matches(groups.entries[category], keyword) {
        counts := Increment(counts, category);
      }
      assert groups.keys[..j + 1][..j] == groups.keys[..j];
      j := j + 1;
    }
    assert groups.keys[..j] == groups.keys;
    TallyKeywordEffect(counts0, groups, groups.keys, keyword);
  }

  /** Some keyword is kept exactly when the grouping has a key. */
  lemma {:induction false} KeptIffGroups(kws: seq<string>)
    ensures Groups(kws).keys == [] <==> KeptKeywords(kws) == []
  {
    if kws != [] {
      KeptIffGroups(kws[..|kws| - 1]);
    }
  }

  /** Number of occurrences of `k` in `kws`. */
  function Occurrences(kws: seq<string>, k: string): nat {
    if kws == [] then 0 else Occurrences(kws[..|kws| - 1], k) + (if kws[|kws| - 1] == k then 1 else 0)
  }

  /** `calculate_frequency_score` of compare_keywords.py: the relative frequency of
      each distinct keyword (`value_counts()` divided by its sum). */
  function RelativeFrequency(keywords: seq<string>): (r: map<string, real>)
    ensures forall k :: k in r <==> k in keywords
  {
    if keywords == [] then map kw | kw in keywords :: 0.0
    else map kw | kw in keywords :: Ratio(Occurrences(keywords, kw), |keywords|)
  }

  lemma {:induction false} OccurrencesBounds(kws: seq<string>, k: string)
    ensures Occurrences(kws, k) <= |kws|
    ensures k in kws <==> Occurrences(kws, k) > 0
  {
    if kws != [] {
      OccurrencesBounds(kws[..|kws| - 1], k);
      assert kws == kws[..|kws| - 1] + [kws[|kws| - 1]];
    }
  }

  /** Every distinct keyword gets a score in (0, 1], its number of occurrences
      over the length of the list; an empty list gets no score. */
  lemma RelativeFrequencyBounds(kws: seq<string>)
    ensures forall k :: k in RelativeFrequency(kws) <==> k in kws
    ensures forall k :: k in RelativeFrequency(kws) ==>
      RelativeFrequency(kws)[k] == Ratio(Occurrences(kws, k), |kws|)
    ensures forall k :: k in RelativeFrequency(kws) ==> 0.0 < RelativeFrequency(kws)[k] <= 1.0
  {
    forall k | k in kws
      ensures 0.0 < RelativeFrequency(kws)[k] <= 1.0
    {
      OccurrencesBounds(kws, k);
      RatioBounds(Occurrences(kws, k), |kws|);
    }
  }

  function SumOver(keys: seq<string>, m: map<string, real>): real
    requires forall i :: 0 <= i < |keys| ==> keys[i] in m
  {
    if keys == [] then 0.0 else m[keys[0]] + SumOver(keys[1..], m)
  }

  /** Number of positions of `kws` whose keyword lies in `s`. */
  function CountIn(kws: seq<string>, s: set<string>): nat {
    if kws == [] then 0 else CountIn(kws[..|kws| - 1], s) + (if kws[|kws| - 1] in s then 1 else 0)
  }

  lemma {:induction false} CountInSplit(kws: seq<string>, s: set<string>, x: string)
    requires x in s
    ensures CountIn(kws, s) == CountIn(kws, s - {x}) + Occurrences(kws, x)
  {
    if kws != [] {
      CountInSplit(kws[..|kws| - 1], s, x);
    }
  }

  lemma {:induction false} CountInNone(kws: seq<string>, s: set<string>)
    requires s == {}
    ensures CountIn(kws, s) == 0
  {
    if kws != [] {
      CountInNone(kws[..|kws| - 1], s);
    }
  }

  lemma {:induction false} CountInAll(kws: seq<string>, s: set<string>)
    requires forall i :: 0 <= i < |kws| ==> kws[i] in s
    ensures CountIn(kws, s) == |kws|
  {
    if kws != [] {
      CountInAll(kws[..|kws| - 1], s);
    }
  }

  lemma {:induction false} SumOfOccurrences(kws: seq<string>, keys: seq<string>)
    requires Distinct(keys) && |kws| > 0
    requires forall i :: 0 <= i < |keys| ==> keys[i] in kws
    ensures SumOver(keys, RelativeFrequency(kws)) == Ratio(CountIn(kws, set k | k in keys), |kws|)
  {
    if keys == [] {
      CountInNone(kws, set k | k in keys);
    } else {
      var rest := keys[1..];
      SumOfOccurrences(kws, rest);
      CountInSplit(kws, (set k | k in keys), keys[0]);
      assert (set k | k in keys) - {keys[0]} == set k | k in rest;
      RatioAdd(Occurrences(kws, keys[0]), CountIn(kws, set k | k in rest), |kws|);
    }
  }

  /** The relative frequencies of a non-empty list add up to one, summed over any
      duplicate-free listing of its distinct keywords. */
  lemma RelativeFrequencySumsToOne(kws: seq<string>, keys: seq<string>)
    requires |kws| > 0 && Distinct(keys)
    requires forall k :: k in keys <==> k in kws
    ensures SumOver(keys, RelativeFrequency(kws)) == 1.0
  {
    SumOfOccurrences(kws, keys);
    CountInAll(kws, set k | k in keys);
    RatioBounds(|kws|, |kws|);
  }

  /** On a duplicate-free list every keyword scores the same, `1 / len(list)`. */
  lemma UniformOnDistinct(kws: seq<string>)
    requires Distinct(kws)
    ensures forall k :: k in RelativeFrequency(kws) ==> RelativeFrequency(kws)[k] == Ratio(1, |kws|)
  {
    forall k | k in kws
      ensures Occurrences(kws, k) == 1
    {
      OccurrencesOnce(kws, k);
    }
  }

  lemma {:induction false} OccurrencesOnce(kws: seq<string>, k: string)
    requires Distinct(kws) && k in kws
    ensures Occurrences(kws, k) == 1
  {
    var pre := kws[..|kws| - 1];
    if kws[|kws| - 1] == k {
      OccurrencesBounds(pre, k);
    } else {
      assert kws == pre + [kws[|kws| - 1]];
      OccurrencesOnce(pre, k);
    }
  }
}
