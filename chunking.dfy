/** Requests to the trend API go out five keywords at a time, and the per-chunk
    score dictionaries are merged with `dict.update` in submission order. */
module Chunking {
  import opened Text

  const ChunkSize := 5

  /** `[xs[i:i + 5] for i in range(0, len(xs), 5)]`. */
  function Chunks<T>(xs: seq<T>): (cs: seq<seq<T>>)
    ensures forall j :: 0 <= j < |cs| ==> 0 < |cs[j]| <= ChunkSize
    ensures forall j :: 0 <= j < |cs| - 1 ==> |cs[j]| == ChunkSize
    decreases |xs|
  {
    if xs == [] then []
    else
      var n := Min(ChunkSize, |xs|);
      [xs[..n]] + Chunks(xs[n..])
  }

  function Flatten<T>(cs: seq<seq<T>>): seq<T> {
    if cs == [] then [] else cs[0] + Flatten(cs[1..])
  }

  /** The chunks, put back together, are the input: every element is sent once, in
      order. */
  lemma {:induction false} ChunksFlatten<T>(xs: seq<T>)
    ensures Flatten(Chunks(xs)) == xs
    decreases |xs|
  {
    if xs != [] {
      var n := Min(ChunkSize, |xs|);
      ChunksFlatten(xs[n..]);
      assert Chunks(xs)[1..] == Chunks(xs[n..]);
      assert xs == xs[..n] + xs[n..];
    }
  }

  /** Chunk `j` is the slice starting at `5 * j`, and there are `ceil(len / 5)` of
      them: the index loop `for i in range(0, len(xs), 5)` visits the same chunks. */
  lemma {:induction false} ChunksAt<T>(xs: seq<T>)
    ensures |Chunks(xs)| == (|xs| + ChunkSize - 1) / ChunkSize
    ensures forall j :: 0 <= j < |Chunks(xs)| ==>
      Chunks(xs)[j] == xs[ChunkSize * j .. Min(ChunkSize * j + ChunkSize, |xs|)]
    decreases |xs|
  {
    if xs != [] {
      var n := Min(ChunkSize, |xs|);
      var rest := xs[n..];
      ChunksAt(rest);
      var cs := Chunks(xs);
      assert cs == [xs[..n]] + Chunks(rest);
      forall j | 1 <= j < |cs|
        ensures cs[j] == xs[ChunkSize * j .. Min(ChunkSize * j + ChunkSize, |xs|)]
      {
        assert cs[j] == Chunks(rest)[j - 1];
        assert n == ChunkSize;
        ShiftSlice(xs, n, ChunkSize * (j - 1), Min(ChunkSize * (j - 1) + ChunkSize, |rest|));
      }
    }
  }

  lemma ShiftSlice<T>(xs: seq<T>, n: nat, a: nat, b: nat)
    requires n <= |xs| && a <= b <= |xs| - n
    ensures xs[n..][a..b] == xs[n + a .. n + b]
  {
  }

  /** The chunk starting at index `i = 5 * c` of the index loop, and whether the loop
      goes on after it. */
  lemma ChunkAt<T>(xs: seq<T>, c: nat, i: nat)
    requires i == ChunkSize * c && i < |xs|
    ensures c < |Chunks(xs)|
    ensures Chunks(xs)[c] == xs[i .. Min(i + ChunkSize, |xs|)]
    ensures c + 1 < |Chunks(xs)| <==> i + ChunkSize < |xs|
  {
    ChunksAt(xs);
  }

  /** Every element lies in some chunk. */
  lemma {:induction false} InSomeChunk<T>(xs: seq<T>, x: T)
    requires x in xs
    ensures exists j :: 0 <= j < |Chunks(xs)| && x in Chunks(xs)[j]
    decreases |xs|
  {
    var n := Min(ChunkSize, |xs|);
    if x !in xs[..n] {
      assert xs == xs[..n] + xs[n..];
      InSomeChunk(xs[n..], x);
      var j :| 0 <= j < |Chunks(xs[n..])| && x in Chunks(xs[n..])[j];
      assert Chunks(xs)[j + 1] == Chunks(xs[n..])[j];
    } else {
      assert x in Chunks(xs)[0];
    }
  }

  /** `scores.update(part)` for each part in order: a later part overwrites. */
  function MergeAll<V>(parts: seq<map<string, V>>): map<string, V> {
    if parts == [] then map[] else MergeAll(parts[..|parts| - 1]) + parts[|parts| - 1]
  }

  /** The merged keys are exactly those of the parts. */
  lemma {:induction false} MergeAllKeys<V>(parts: seq<map<string, V>>)
    ensures forall k :: k in MergeAll(parts) <==> exists j :: 0 <= j < |parts| && k in parts[j]
  {
    if parts != [] {
      var pre := parts[..|parts| - 1];
      MergeAllKeys(pre);
      assert forall j :: 0 <= j < |pre| ==> pre[j] == parts[j];
    }
  }

  /** A key takes its value from the last part that holds it. */
  lemma {:induction false} LastPartWins<V>(parts: seq<map<string, V>>, j: nat, k: string)
    requires j < |parts| && k in parts[j]
    requires forall j' :: j < j' < |parts| ==> k !in parts[j']
    ensures k in MergeAll(parts) && MergeAll(parts)[k] == parts[j][k]
  {
    if j < |parts| - 1 {
      var pre := parts[..|parts| - 1];
      LastPartWins(pre, j, k);
    }
  }

  /** A part with no entries (a chunk whose request failed) changes nothing, wherever
      it sits among the others. */
  lemma {:induction false} EmptyPartNeutral<V>(a: seq<map<string, V>>, b: seq<map<string, V>>)
    ensures MergeAll(a + [map[]] + b) == MergeAll(a + b)
    decreases |b|
  {
    if b == [] {
      assert (a + [map[]] + b)[..|a|] == a;
      assert a + b == a;
      assert MergeAll(a) + map[] == MergeAll(a);
    } else {
      var b' := b[..|b| - 1];
      EmptyPartNeutral(a, b');
      MergeLast(a + [map[]] + b', b[|b| - 1]);
      MergeLast(a + b', b[|b| - 1]);
      assert a + [map[]] + b == (a + [map[]] + b') + [b[|b| - 1]];
      assert a + b == (a + b') + [b[|b| - 1]];
    }
  }

  lemma MergeLast<V>(parts: seq<map<string, V>>, last: map<string, V>)
    ensures MergeAll(parts + [last]) == MergeAll(parts) + last
  {
    assert (parts + [last])[..|parts|] == parts;
  }
}
