/** Removing keywords that mention a brand: `not any(brand in kw for brand in brands)`. */
module Brands {
  import opened Text

  /** Some brand occurs in the keyword as a substring. */
  predicate ContainsBrand(kw: string, brands: set<string>) {
    exists b :: b in brands && IsSubstring(b, kw)
  }

  /** The keywords without a brand, in their original order: every survivor is an
      input keyword that contains no brand. */
  function WithoutBrands(kws: seq<string>, brands: set<string>): (r: seq<string>)
    ensures |r| <= |kws|
    ensures forall i :: 0 <= i < |r| ==> r[i] in kws && !ContainsBrand(r[i], brands)
  {
    if kws == [] then []
    else WithoutBrands(kws[..|kws| - 1], brands) + (if ContainsBrand(kws[|kws| - 1], brands) then [] else [kws[|kws| - 1]])
  }

  /** A keyword is kept exactly when it is in the input and mentions no brand. */
  lemma {:induction false} WithoutBrandsMembers(kws: seq<string>, brands: set<string>)
    ensures forall kw :: kw in WithoutBrands(kws, brands) <==> kw in kws && !ContainsBrand(kw, brands)
  {
    if kws != [] {
      WithoutBrandsMembers(kws[..|kws| - 1], brands);
      assert kws == kws[..|kws| - 1] + [kws[|kws| - 1]];
    }
  }

  /** Filtering a concatenation filters each part: the order of the input is kept. */
  lemma {:induction false} WithoutBrandsAppend(a: seq<string>, b: seq<string>, brands: set<string>)
    ensures WithoutBrands(a + b, brands) == WithoutBrands(a, brands) + WithoutBrands(b, brands)
    decreases |b|
  {
    if b == [] {
      assert a + b == a;
    } else {
      var b' := b[..|b| - 1];
      WithoutBrandsAppend(a, b', brands);
      assert (a + b)[..|a + b| - 1] == a + b';
    }
  }

  /** Filtering again changes nothing. */
  lemma {:induction false} WithoutBrandsIdempotent(kws: seq<string>, brands: set<string>)
    ensures WithoutBrands(WithoutBrands(kws, brands), brands) == WithoutBrands(kws, brands)
  {
    if kws != [] {
      var pre := kws[..|kws| - 1];
      var kw := kws[|kws| - 1];
      WithoutBrandsIdempotent(pre, brands);
      var tail := if ContainsBrand(kw, brands) then [] else [kw];
      WithoutBrandsAppend(WithoutBrands(pre, brands), tail, brands);
      if !ContainsBrand(kw, brands) {
        assert WithoutBrands(tail, brands) == WithoutBrands([], brands) + [kw];
      }
    }
  }

  /** With no brand, every keyword is kept. */
  lemma {:induction false} NoBrandsKeepsAll(kws: seq<string>)
    ensures WithoutBrands(kws, {}) == kws
  {
    if kws != [] {
      var pre, kw := kws[..|kws| - 1], kws[|kws| - 1];
      assert kws == pre + [kw];
      NoBrandsKeepsAll(pre);
      assert !ContainsBrand(kw, {});
    }
  }

  /** The empty brand occurs in every keyword, so it removes them all. */
  lemma {:induction false} EmptyBrandRemovesAll(kws: seq<string>, brands: set<string>)
    requires "" in brands
    ensures WithoutBrands(kws, brands) == []
  {
    if kws != [] {
      EmptyBrandRemovesAll(kws[..|kws| - 1], brands);
      EmptyIsSubstring(kws[|kws| - 1]);
    }
  }

  /** A keyword that spells a brand inside it is removed, whatever surrounds it. */
  lemma BrandInsideRemoved(brand: string, before: string, after: string, brands: set<string>)
    requires brand in brands
    ensures ContainsBrand(before + brand + after, brands)
  {
    var kw := before + brand + after;
    assert kw[|before|..|before| + |brand|] == brand;
    assert OccursAt(brand, kw, |before|);
  }
}
