/** `sorted(rows, key=..., reverse=True)[:n]`: Python's sort is stable, and with
    `reverse=True` rows with equal keys keep their original order. */
module Ranking {
  import opened Text

  /** One row of a calculator's output: `키워드`, `빈도 점수`, `유행성 점수`, `총점`. */
  datatype Row = Row(keyword: string, frequency: real, trend: real, total: real)

  function TotalOf(r: Row): real {
    r.total
  }

  predicate NonIncreasing<T>(xs: seq<T>, key: T -> real) {
    forall i, j :: 0 <= i < j < |xs| ==> key(xs[i]) >= key(xs[j])
  }

  /** Place `x` in front of the first element whose key is not larger than its own:
      after every larger key, before every equal one. */
  function InsertDesc<T>(x: T, s: seq<T>, key: T -> real): (r: seq<T>)
    ensures |r| == |s| + 1
  {
    if s == [] then [x]
    else if key(s[0]) > key(x) then [s[0]] + InsertDesc(x, s[1..], key)
    else [x] + s
  }

  /** The stable descending sort, built from the back: each element goes in front of
      the later elements with an equal key. */
  function SortDesc<T>(xs: seq<T>, key: T -> real): (r: seq<T>)
    ensures |r| == |xs|
    ensures multiset(r) == multiset(xs)
  {
    if xs == [] then []
    else
      InsertDescElements(xs[0], SortDesc(xs[1..], key), key);
      assert xs == [xs[0]] + xs[1..];
      InsertDesc(xs[0], SortDesc(xs[1..], key), key)
  }

  /** The elements whose key is `v`, in order. */
  function WithKey<T>(xs: seq<T>, key: T -> real, v: real): seq<T> {
    if xs == [] then [] else (if key(xs[0]) == v then [xs[0]] else []) + WithKey(xs[1..], key, v)
  }

  lemma {:induction false} InsertDescElements<T>(x: T, s: seq<T>, key: T -> real)
    ensures forall y :: y in InsertDesc(x, s, key) ==> y == x || y in s
    ensures multiset(InsertDesc(x, s, key)) == multiset(s) + multiset{x}
  {
    if s != [] && key(s[0]) > key(x) {
      InsertDescElements(x, s[1..], key);
      assert s == [s[0]] + s[1..];
    }
  }

  lemma {:induction false} InsertDescSorted<T>(x: T, s: seq<T>, key: T -> real)
    requires NonIncreasing(s, key)
    ensures NonIncreasing(InsertDesc(x, s, key), key)
  {
    if s != [] && key(s[0]) > key(x) {
      var r := InsertDesc(x, s[1..], key);
      InsertDescSorted(x, s[1..], key);
      InsertDescElements(x, s[1..], key);
      forall j | 0 <= j < |r|
        ensures key(s[0]) >= key(r[j])
      {
        assert r[j] in InsertDesc(x, s[1..], key);
        if r[j] != x {
          var k :| 0 <= k < |s[1..]| && s[1..][k] == r[j];
          assert s[k + 1] == r[j];
        }
      }
    }
  }

  lemma WithKeyCons<T>(a: T, r: seq<T>, key: T -> real, v: real)
    ensures WithKey([a] + r, key, v) == (if key(a) == v then [a] else []) + WithKey(r, key, v)
  {
    assert ([a] + r)[1..] == r;
  }

  lemma {:induction false} InsertDescStable<T>(x: T, s: seq<T>, key: T -> real, v: real)
    ensures WithKey(InsertDesc(x, s, key), key, v) == (if key(x) == v then [x] else []) + WithKey(s, key, v)
  {
    if s != [] && key(s[0]) > key(x) {
      InsertDescStable(x, s[1..], key, v);
      InsertAfterHead(x, s, key, v);
    } else if s != [] {
      WithKeyCons(x, s, key, v);
    }
  }

  /** The step of `InsertDescStable` where `x` goes after the head `s[0]`. */
  lemma InsertAfterHead<T>(x: T, s: seq<T>, key: T -> real, v: real)
    requires s != [] && key(s[0]) > key(x)
    requires WithKey(InsertDesc(x, s[1..], key), key, v) == (if key(x) == v then [x] else []) + WithKey(s[1..], key, v)
    ensures WithKey(InsertDesc(x, s, key), key, v) == (if key(x) == v then [x] else []) + WithKey(s, key, v)
  {
    var r := InsertDesc(x, s[1..], key);
    assert InsertDesc(x, s, key) == [s[0]] + r;
    WithKeyCons(s[0], r, key, v);
    assert s == [s[0]] + s[1..];
    WithKeyCons(s[0], s[1..], key, v);
    if key(x) == v {
      assert key(s[0]) != v;
    }
  }

  /** The sort orders by non-increasing key and keeps the input order among equal
      keys; with `SortDesc`'s own contract, it is a stable sort. */
  lemma {:induction false} SortDescCorrect<T>(xs: seq<T>, key: T -> real)
    ensures NonIncreasing(SortDesc(xs, key), key)
    ensures forall v :: WithKey(SortDesc(xs, key), key, v) == WithKey(xs, key, v)
  {
    if xs != [] {
      SortDescCorrect(xs[1..], key);
      InsertDescSorted(xs[0], SortDesc(xs[1..], key), key);
      forall v
        ensures WithKey(SortDesc(xs, key), key, v) == WithKey(xs, key, v)
      {
        InsertDescStable(xs[0], SortDesc(xs[1..], key), key, v);
      }
    }
  }

  /** `sorted(xs, key=key, reverse=True)[:n]`: the first `n` of the ranking (all of it
      when `n` is at least the length, fewer from the end when `n` is negative). */
  function Top<T>(xs: seq<T>, key: T -> real, n: int): (r: seq<T>)
    ensures n >= 0 ==> |r| == Min(n, |xs|)
    ensures n < 0 ==> |r| == Max(0, |xs| + n)
  {
    PyPrefix(SortDesc(xs, key), n)
  }

  /** The top rows are sorted, come from the input, and no row left out ranks above a
      row kept. */
  lemma TopCorrect<T>(xs: seq<T>, key: T -> real, n: int)
    ensures NonIncreasing(Top(xs, key, n), key)
    ensures multiset(Top(xs, key, n)) <= multiset(xs)
    ensures forall i, y :: 0 <= i < |Top(xs, key, n)| && y in multiset(xs) - multiset(Top(xs, key, n)) ==>
      key(y) <= key(Top(xs, key, n)[i])
  {
    var s := SortDesc(xs, key);
    var r := Top(xs, key, n);
    SortDescCorrect(xs, key);
    assert s == r + s[|r|..];
    assert multiset(s) == multiset(r) + multiset(s[|r|..]);
    forall i, y | 0 <= i < |r| && y in multiset(xs) - multiset(r)
      ensures key(y) <= key(r[i])
    {
      assert y in multiset(s[|r|..]);
      var j :| 0 <= j < |s[|r|..]| && s[|r|..][j] == y;
      assert s[|r| + j] == y;
    }
  }
}
