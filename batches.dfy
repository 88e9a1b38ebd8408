/** What the map-style runners in tomominer/align/runners.py and
    tomominer/average/runners.py share: cutting a list into consecutive
    chunks with `data[i:i+size] for i in range(0, N, size)`, flattening a
    list of lists, and the order in which `Runner.run_batch` hands results
    back, which is any permutation of the submitted tasks. */
module Batches {

  /** `order` lists each of the `n` submitted task positions exactly once. */
  predicate IsPermutation(order: seq<nat>, n: nat)
  {
    && |order| == n
    && (forall k :: 0 <= k < n ==> order[k] < n)
    && (forall t :: 0 <= t < n ==> t in order)
    && (forall k1, k2 :: 0 <= k1 < k2 < n ==> order[k1] != order[k2])
  }

  function Min(a: int, b: int): int
  {
    if a <= b then a else b
  }

  /** `[data[i:i+size] for i in range(0, len(data), size)]`. */
  function Chunks<T>(data: seq<T>, size: nat): seq<seq<T>>
    requires size > 0
    decreases |data|
  {
    if data == [] then [] else [data[..Min(size, |data|)]] + Chunks(data[Min(size, |data|)..], size)
  }

  /** `[r for b in lists for r in b]`. */
  function Flatten<T>(lists: seq<seq<T>>): seq<T>
  {
    if lists == [] then [] else lists[0] + Flatten(lists[1..])
  }

  lemma {:induction false} FlattenAppend<T>(a: seq<seq<T>>, b: seq<seq<T>>)
    ensures Flatten(a + b) == Flatten(a) + Flatten(b)
  {
    if a == [] {
      assert a + b == b;
    } else {
      assert (a + b)[1..] == a[1..] + b;
      FlattenAppend(a[1..], b);
    }
  }

  /** The first chunk and the rest of the chunking. */
  lemma ChunksUnfold<T>(data: seq<T>, size: nat)
    requires size > 0 && data != []
    ensures var m := Min(size, |data|);
      Chunks(data, size)[0] == data[..m] && Chunks(data, size)[1..] == Chunks(data[m..], size)
  {
  }

  /** Chunking loses, duplicates and reorders nothing: the concatenation
      of the chunks is the data. */
  lemma {:induction false} ChunksFlatten<T>(data: seq<T>, size: nat)
    requires size > 0
    ensures Flatten(Chunks(data, size)) == data
    decreases |data|
  {
    if data != [] {
      var m := Min(size, |data|);
      ChunksUnfold(data, size);
      ChunksFlatten(data[m..], size);
      assert data[..m] + data[m..] == data;
    }
  }

  /** There are ⌈N/size⌉ chunks: just enough to hold the data, and one
      fewer would not. */
  lemma {:induction false} ChunksCount<T>(data: seq<T>, size: nat)
    requires size > 0
    ensures |Chunks(data, size)| == 0 <==> data == []
    ensures |data| <= |Chunks(data, size)| * size
    ensures data != [] ==> (|Chunks(data, size)| - 1) * size < |data|
    decreases |data|
  {
    if data != [] {
      var m := Min(size, |data|);
      var n := |Chunks(data[m..], size)|;
      ChunksUnfold(data, size);
      ChunksCount(data[m..], size);
      assert |Chunks(data, size)| == n + 1;
      assert (n + 1) * size == n * size + size;
      if data[m..] != [] {
        assert (n - 1) * size == n * size - size;
      }
    }
  }

  /** `data[i:i+size]` is the first chunk of `data[i:]`, and what is
      left after it is the rest of the chunking. */
  lemma ChunkStep<T>(data: seq<T>, i: nat, size: nat)
    requires size > 0 && i < |data|
    ensures Chunks(data[i..], size) == [data[i..Min(i + size, |data|)]] + (
      if i + size < |data| then Chunks(data[i + size..], size) else [])
  {
    var rest := data[i..];
    var m := Min(size, |rest|);
    assert Chunks(rest, size) == [rest[..m]] + Chunks(rest[m..], size);
    assert rest[..m] == data[i..Min(i + size, |data|)];
    if i + size < |data| {
      assert rest[m..] == data[i + size..];
    } else {
      assert rest[m..] == [];
    }
  }

  /** The state of a `for i in range(0, N, size)` loop: the chunks taken
      before `i`, followed by the chunks of `data[i:]`, are all the chunks. */
  ghost predicate ChunkedUpTo<T>(data: seq<T>, size: nat, done: seq<seq<T>>, i: nat)
    requires size > 0
  {
    if i < |data| then Chunks(data, size) == done + Chunks(data[i..], size) else Chunks(data, size) == done
  }

  /** Before the first turn nothing is taken. */
  lemma ChunkStart<T>(data: seq<T>, size: nat)
    requires size > 0
    ensures ChunkedUpTo(data, size, [], 0)
  {
    assert data[0..] == data;
  }

  /** One turn of the loop: taking `data[i:i+size]` leaves the chunks from
      `i + size` on. */
  lemma ChunkAdvance<T>(data: seq<T>, size: nat, done: seq<seq<T>>, i: nat)
    requires size > 0 && i < |data| && ChunkedUpTo(data, size, done, i)
    ensures ChunkedUpTo(data, size, done + [data[i..Min(i + size, |data|)]], i + size)
  {
    var c := data[i..Min(i + size, |data|)];
    ChunkStep(data, i, size);
    if i + size < |data| {
      assert Chunks(data[i..], size) == [c] + Chunks(data[i + size..], size);
      assert done + ([c] + Chunks(data[i + size..], size)) == (done + [c]) + Chunks(data[i + size..], size);
    } else {
      assert Chunks(data[i..], size) == [c];
    }
  }

  /** Every chunk is non-empty and at most `size` long, and every one but
      the last is exactly `size` long. */
  lemma {:induction false} ChunksSizes<T>(data: seq<T>, size: nat)
    requires size > 0
    ensures forall c :: 0 <= c < |Chunks(data, size)| ==> 0 < |Chunks(data, size)[c]| <= size
    ensures forall c :: 0 <= c < |Chunks(data, size)| - 1 ==> |Chunks(data, size)[c]| == size
    decreases |data|
  {
    if data != [] {
      var m := Min(size, |data|);
      var chunks := Chunks(data, size);
      var rest := Chunks(data[m..], size);
      ChunksUnfold(data, size);
      ChunksSizes(data[m..], size);
      assert forall c :: 1 <= c < |chunks| ==> chunks[c] == rest[c - 1];
    }
  }

  /** `f` applied to every element of every chunk. */
  function MapChunks<T, R>(chunks: seq<seq<T>>, f: T -> R): (r: seq<seq<R>>)
    ensures |r| == |chunks| && forall c :: 0 <= c < |chunks| ==> r[c] == MapSeq(chunks[c], f)
  {
    seq(|chunks|, c requires 0 <= c < |chunks| => MapSeq(chunks[c], f))
  }

  /** Mapping a per-element function over each chunk and flattening gives
      the per-element map over the data: chunked work comes back in data
      order. */
  lemma {:induction false} FlattenMapChunks<T, R>(data: seq<T>, size: nat, f: T -> R)
    requires size > 0
    ensures Flatten(MapChunks(Chunks(data, size), f)) == MapSeq(data, f)
    decreases |data|
  {
    if data != [] {
      var m := Min(size, |data|);
      ChunksUnfold(data, size);
      FlattenMapChunks(data[m..], size, f);
      assert MapChunks(Chunks(data, size), f)[1..] == MapChunks(Chunks(data[m..], size), f);
      MapSeqAppend(data[..m], data[m..], f);
      assert data[..m] + data[m..] == data;
    }
  }

  function MapSeq<T, R>(s: seq<T>, f: T -> R): (r: seq<R>)
    ensures |r| == |s| && forall k :: 0 <= k < |s| ==> r[k] == f(s[k])
  {
    seq(|s|, k requires 0 <= k < |s| => f(s[k]))
  }

  lemma MapSeqAppend<T, R>(a: seq<T>, b: seq<T>, f: T -> R)
    ensures MapSeq(a + b, f) == MapSeq(a, f) + MapSeq(b, f)
  {
  }
}
