/** The normaliser and grouper shared by compare_keywords_cloud.py
    (`generate_representative_keywords`) and collect_keywords_cloud.py
    (`generate_category_keywords`), which are the same code. */
module Grouping {
  import opened Text
  import opened OrderedDicts

  /** The characters `[가-힣a-zA-Z]` keeps: a precomposed Hangul syllable
      (U+AC00..U+D7A3) or an ASCII letter. */
  predicate IsKeyChar(c: char) {
    ('a' <= c <= 'z') || ('A' <= c <= 'Z') || (0xAC00 <= c as int <= 0xD7A3)
  }

  predicate OnlyKeyChars(s: string) {
    forall i :: 0 <= i < |s| ==> IsKeyChar(s[i])
  }

  /** `re.sub(r'[^가-힣a-zA-Z]', '', s)`: delete every character outside the class.
      The key holds only class characters and is never longer than the keyword. */
  function Normalize(s: string): (r: string)
    ensures OnlyKeyChars(r)
    ensures |r| <= |s|
  {
    if s == [] then [] else (if IsKeyChar(s[0]) then [s[0]] else []) + Normalize(s[1..])
  }

  /** Normalising a concatenation normalises each part: characters are judged one
      at a time, independently of their neighbours. */
  lemma {:induction false} NormalizeAppend(a: string, b: string)
    ensures Normalize(a + b) == Normalize(a) + Normalize(b)
  {
    if a == [] {
      assert a + b == b;
    } else {
      var head := if IsKeyChar(a[0]) then [a[0]] else [];
      assert (a + b)[0] == a[0];
      assert (a + b)[1..] == a[1..] + b;
      assert Normalize(a + b) == head + Normalize(a[1..] + b);
      NormalizeAppend(a[1..], b);
      assert Normalize(a) == head + Normalize(a[1..]);
    }
  }

  /** Exactly the class characters survive, in order, and nothing else does: a
      class character is kept as it is, any other character is deleted (not
      replaced), so a keyword with a character outside the class loses it. With
      `NormalizeAppend`, the two single-character cases fix `Normalize` on every
      string. */
  lemma {:induction false} NormalizeKeepsExactlyKeyChars(s: string)
    ensures OnlyKeyChars(Normalize(s))
    ensures |Normalize(s)| <= |s|
    ensures OnlyKeyChars(s) ==> Normalize(s) == s
    ensures !OnlyKeyChars(s) ==> |Normalize(s)| < |s|
    ensures forall c :: IsKeyChar(c) ==> Normalize([c]) == [c]
    ensures forall c :: !IsKeyChar(c) ==> Normalize([c]) == []
  {
    if s != [] {
      NormalizeKeepsExactlyKeyChars(s[1..]);
      if !OnlyKeyChars(s) && OnlyKeyChars(s[1..]) {
        assert !IsKeyChar(s[0]);
      }
    }
    forall c
      ensures Normalize([c]) == if IsKeyChar(c) then [c] else []
    {
      assert [c][1..] == [];
    }
  }

  /** Normalising a key again changes nothing. */
  lemma NormalizeIdempotent(s: string)
    ensures Normalize(Normalize(s)) == Normalize(s)
  {
    NormalizeKeepsExactlyKeyChars(s);
    NormalizeKeepsExactlyKeyChars(Normalize(s));
  }

  /** Surface variants that differ only in punctuation, spacing and digits share a key. */
  lemma SpacingVariantsShareKey()
    ensures Normalize("블루투스-이어폰 2.0") == Normalize("블루투스이어폰20") == "블루투스이어폰"
  {
    HyphenatedVariantKey();
    DigitVariantKey();
  }

  lemma HyphenatedVariantKey()
    ensures Normalize("블루투스-이어폰 2.0") == "블루투스이어폰"
  {
    HyphenatedPieces();
    HyphenatedHeadKept();
  }

  lemma HyphenatedPieces()
    ensures "블루투스-이어폰 2.0" == "블루투스" + "-이어폰 2.0"
    ensures "블루투스" + "이어폰" == "블루투스이어폰"
  {
  }

  lemma HyphenatedHeadKept()
    ensures Normalize("블루투스" + "-이어폰 2.0") == "블루투스" + "이어폰"
  {
    HyphenatedTailKey();
    NormalizeKeepsExactlyKeyChars("블루투스");
    KeyPrefixKept("블루투스", "-이어폰 2.0", "이어폰");
  }

  lemma KeyPrefixKept(a: string, b: string, kb: string)
    requires Normalize(a) == a && Normalize(b) == kb
    ensures Normalize(a + b) == a + kb
  {
    NormalizeAppend(a, b);
  }

  lemma HyphenatedTailKey()
    ensures Normalize("-이어폰 2.0") == "이어폰"
  {
    TailPieces();
    PunctuationDropped();
    NormalizeKeepsExactlyKeyChars("이어폰");
    NormalizeAppend("이어폰", " 2.0");
    NormalizeAppend("-", "이어폰 2.0");
  }

  lemma TailPieces()
    ensures "-이어폰 2.0" == "-" + "이어폰 2.0"
    ensures "이어폰 2.0" == "이어폰" + " 2.0"
    ensures "" + ("이어폰" + "") == "이어폰"
  {
  }

  lemma PunctuationDropped()
    ensures Normalize("-") == "" && Normalize(" 2.0") == ""
  {
  }

  lemma DigitVariantKey()
    ensures Normalize("블루투스이어폰20") == "블루투스이어폰"
  {
    DigitPieces();
    NormalizeKeepsExactlyKeyChars("블루투스이어폰");
    DigitsDropped();
    KeyPrefixKept("블루투스이어폰", "20", "");
  }

  lemma DigitPieces()
    ensures "블루투스이어폰20" == "블루투스이어폰" + "20"
    ensures "블루투스이어폰" + "" == "블루투스이어폰"
  {
  }

  lemma DigitsDropped()
    ensures Normalize("20") == ""
  {
  }

  /** A keyword takes part in grouping when its key is longer than one character. */
  predicate Kept(kw: string) {
    |Normalize(kw)| > 1
  }

  /** The keywords whose key is `k`, in input order. */
  function Members(kws: seq<string>, k: string): seq<string> {
    if kws == [] then []
    else Members(kws[..|kws| - 1], k) + (if Normalize(kws[|kws| - 1]) == k then [kws[|kws| - 1]] else [])
  }

  /** The kept keywords, in input order. */
  function KeptKeywords(kws: seq<string>): seq<string> {
    if kws == [] then []
    else KeptKeywords(kws[..|kws| - 1]) + (if Kept(kws[|kws| - 1]) then [kws[|kws| - 1]] else [])
  }

  /** The grouping built one keyword at a time: a new key is appended with an
      empty list, then the keyword is appended to its key's list. */
  function Groups(kws: seq<string>): (d: Dict<seq<string>>)
    ensures d.Valid()
  {
    if kws == [] then Empty()
    else
      var d := Groups(kws[..|kws| - 1]);
      var kw := kws[|kws| - 1];
      var k := Normalize(kw);
      if |k| > 1 then
        var d' := if k in d.entries then d else Assign(d, k, []);
        Assign(d', k, d'.entries[k] + [kw])
      else d
  }

  lemma {:induction false} MembersMeaning(kws: seq<string>, k: string)
    ensures forall x :: x in Members(kws, k) <==> x in kws && Normalize(x) == k
  {
    if kws != [] {
      MembersMeaning(kws[..|kws| - 1], k);
      assert kws == kws[..|kws| - 1] + [kws[|kws| - 1]];
    }
  }

  /** The keys of the grouping are exactly the keys, longer than one character, of
      the input keywords, and each key holds exactly the keywords with that key in
      input order. */
  lemma {:induction false} GroupsContents(kws: seq<string>)
    ensures forall k :: k in Groups(kws).entries <==> |k| > 1 && Members(kws, k) != []
    ensures forall k :: k in Groups(kws).entries ==> Groups(kws).entries[k] == Members(kws, k)
  {
    if kws != [] {
      var pre := kws[..|kws| - 1];
      var key := Normalize(kws[|kws| - 1]);
      GroupsContents(pre);
      forall k
        ensures k in Groups(kws).entries <==> |k| > 1 && Members(kws, k) != []
        ensures k in Groups(kws).entries ==> Groups(kws).entries[k] == Members(kws, k)
      {
        if k != key {
          assert Members(kws, k) == Members(pre, k);
        }
      }
    }
  }

  /** Each kept keyword is filed under its own key and under no other key. */
  lemma KeptKeywordInOwnGroup(kws: seq<string>, kw: string, k: string)
    requires kw in kws && Kept(kw) && k in Groups(kws).entries
    ensures Normalize(kw) in Groups(kws).entries
    ensures kw in Groups(kws).entries[k] <==> k == Normalize(kw)
  {
    GroupsContents(kws);
    MembersMeaning(kws, Normalize(kw));
    MembersMeaning(kws, k);
  }

  /** Sum of the list lengths of the given keys. */
  function SizeOf(keys: seq<string>, m: map<string, seq<string>>): nat
    requires forall i :: 0 <= i < |keys| ==> keys[i] in m
  {
    if keys == [] then 0 else |m[keys[0]]| + SizeOf(keys[1..], m)
  }

  lemma {:induction false} SizeOfGrow(keys: seq<string>, m: map<string, seq<string>>, k: string, x: string)
    requires forall i :: 0 <= i < |keys| ==> keys[i] in m
    requires forall i, j :: 0 <= i < j < |keys| ==> keys[i] != keys[j]
    requires k in m
    ensures SizeOf(keys, m[k := m[k] + [x]]) == SizeOf(keys, m) + (if k in keys then 1 else 0)
  {
    if keys != [] {
      SizeOfGrow(keys[1..], m, k, x);
    }
  }

  lemma {:induction false} SizeOfSnoc(keys: seq<string>, m: map<string, seq<string>>, k: string)
    requires forall i :: 0 <= i < |keys| ==> keys[i] in m
    requires k in m
    ensures SizeOf(keys + [k], m) == SizeOf(keys, m) + |m[k]|
  {
    if keys == [] {
      assert [k][1..] == [];
    } else {
      assert (keys + [k])[1..] == keys[1..] + [k];
      SizeOfSnoc(keys[1..], m, k);
    }
  }

  lemma {:induction false} SizeOfIgnoresOthers(keys: seq<string>, m: map<string, seq<string>>, k: string, v: seq<string>)
    requires forall i :: 0 <= i < |keys| ==> keys[i] in m
    requires k !in keys
    ensures SizeOf(keys, m[k := v]) == SizeOf(keys, m)
  {
    if keys != [] {
      SizeOfIgnoresOthers(keys[1..], m, k, v);
    }
  }

  /** The group lists together hold every kept keyword once: their total length is
      the number of kept keywords. */
  lemma {:induction false} GroupsTotalSize(kws: seq<string>)
    ensures SizeOf(Groups(kws).keys, Groups(kws).entries) == |KeptKeywords(kws)|
  {
    if kws != [] {
      var pre := kws[..|kws| - 1];
      GroupsTotalSize(pre);
      var d := Groups(pre);
      var kw := kws[|kws| - 1];
      var k := Normalize(kw);
      if |k| > 1 {
        var d' := if k in d.entries then d else Assign(d, k, []);
        if k !in d.entries {
          SizeOfIgnoresOthers(d.keys, d.entries, k, []);
          SizeOfSnoc(d.keys, d'.entries, k);
        }
        SizeOfGrow(d'.keys, d'.entries, k, kw);
      }
    }
  }

  /** Every key is made of class characters only and is longer than one character,
      and a keyword's own key is a key of the grouping exactly when it is kept. */
  lemma GroupsKeys(kws: seq<string>)
    ensures forall k :: k in Groups(kws).entries ==> |k| > 1 && OnlyKeyChars(k)
    ensures forall k :: k in Groups(kws).entries ==> Groups(kws).entries[k] == Members(kws, k)
    ensures forall kw :: kw in kws ==> (Normalize(kw) in Groups(kws).entries <==> Kept(kw))
  {
    var g := Groups(kws);
    GroupsContents(kws);
    forall k | k in g.entries
      ensures OnlyKeyChars(k)
    {
      KeyIsNormalized(kws, k);
    }
    forall kw | kw in kws
      ensures Normalize(kw) in g.entries <==> Kept(kw)
    {
      MembersMeaning(kws, Normalize(kw));
    }
  }

  lemma KeyIsNormalized(kws: seq<string>, k: string)
    requires Members(kws, k) != []
    ensures OnlyKeyChars(k)
  {
    MembersMeaning(kws, k);
    var x := Members(kws, k)[0];
    NormalizeKeepsExactlyKeyChars(x);
  }

  /** `generate_representative_keywords` / `generate_category_keywords`. */
  method GroupByKey(keywords: seq<string>) returns (groups: Dict<seq<string>>)
    ensures groups == Groups(keywords) && groups.Valid()
    ensures forall k :: k in groups.entries ==> |k| > 1 && OnlyKeyChars(k)
    ensures forall k :: k in groups.entries ==> groups.entries[k] == Members(keywords, k)
    ensures forall kw :: kw in keywords ==> (Normalize(kw) in groups.entries <==> Kept(kw))
  {
    groups := Empty();
    var i := 0;
    while i < |keywords|
      invariant 0 <= i <= |keywords|
      invariant groups == Groups(keywords[..i])
    {
      var keyword := keywords[i];
      var baseWord := Normalize(keyword);
      if |baseWord| > 1 {
        var category := baseWord;
        if category !in groups.entries {
          groups := Assign(groups, category, []);
        }
        groups := Assign(groups, category, groups.entries[category] + [keyword]);
      }
      assert keywords[..i + 1][..i] == keywords[..i];
      i := i + 1;
    }
    assert keywords[..i] == keywords;
    GroupsKeys(keywords);
  }
}
