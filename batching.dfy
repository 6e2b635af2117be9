// Fixed-size batching as `for i in range(0, n, size): batch = s[i:i+size]`.

module Batching {

  import Tables

  /**
   * `head(max_stocks)` when `max_stocks` is positive, the whole list otherwise:
   * the first min(max_stocks, n) items.
   */
  function Head<T>(list: seq<T>, maxStocks: int): (r: seq<T>)
    ensures maxStocks > 0 ==> |r| == Tables.Min(maxStocks, |list|)
    ensures maxStocks <= 0 ==> r == list
    ensures r <= list
  {
    if maxStocks > 0 then list[..Tables.Min(maxStocks, |list|)] else list
  }

  /** `(n + size - 1) // size`, the number of batches of a list of n items. */
  function NumBatches(n: nat, size: nat): nat
    requires size > 0
  {
    (n + size - 1) / size
  }

  /** Batch k, that is `s[k*size : k*size + size]` with Python's clamped slicing. */
  function BatchAt<T>(s: seq<T>, size: nat, k: nat): seq<T>
    requires size > 0
  {
    if k * size >= |s| then [] else s[k * size .. Tables.Min(k * size + size, |s|)]
  }

  /** The first k batches, concatenated. */
  function FirstBatches<T>(s: seq<T>, size: nat, k: nat): seq<T>
    requires size > 0
  {
    if k == 0 then [] else FirstBatches(s, size, k - 1) + BatchAt(s, size, k - 1)
  }

  /** The results of f on the first k batches, concatenated. */
  function Batched<T, U>(s: seq<T>, size: nat, f: seq<T> -> seq<U>, k: nat): seq<U>
    requires size > 0
  {
    if k == 0 then [] else Batched(s, size, f, k - 1) + f(BatchAt(s, size, k - 1))
  }

  /** Where f maps g over each of the first k batches, the batched results map g over those batches' items. */
  lemma {:induction false} BatchedMap<T, U>(s: seq<T>, size: nat, f: seq<T> -> seq<U>, g: T -> U, k: nat)
    requires size > 0
    requires forall j :: 0 <= j < k ==> f(BatchAt(s, size, j)) == Tables.Map(BatchAt(s, size, j), g)
    ensures Batched(s, size, f, k) == Tables.Map(FirstBatches(s, size, k), g)
  {
    if k > 0 {
      var j: nat := k - 1;
      BatchedMap(s, size, f, g, j);
      Tables.MapConcat(FirstBatches(s, size, j), BatchAt(s, size, j), g);
    }
  }

  /** `NumBatches` is the ceiling of n / size: enough batches, and none of them empty. */
  lemma NumBatchesIsCeiling(n: nat, size: nat)
    requires size > 0
    ensures NumBatches(n, size) * size >= n
    ensures n > 0 ==> (NumBatches(n, size) - 1) * size < n
    ensures n == 0 ==> NumBatches(n, size) == 0
  {
    var q := NumBatches(n, size);
    assert (n + size - 1) == q * size + (n + size - 1) % size;
  }

  lemma {:induction false} FirstBatchesPrefix<T>(s: seq<T>, size: nat, k: nat)
    requires size > 0
    ensures FirstBatches(s, size, k) == s[..Tables.Min(k * size, |s|)]
  {
    if k > 0 {
      FirstBatchesPrefix(s, size, k - 1);
      var j := (k - 1) * size;
      MulSucc(k - 1, size);
      assert j + size == k * size;
      var b := Tables.Min(k * size, |s|);
      if j < |s| {
        assert BatchAt(s, size, k - 1) == s[j..b];
        assert s[..j] + s[j..b] == s[..b];
      } else {
        assert BatchAt(s, size, k - 1) == [];
        assert Tables.Min(j, |s|) == |s| == b;
      }
    }
  }

  lemma MulMono(a: nat, b: nat, c: nat)
    requires a <= b
    ensures a * c <= b * c
  {
  }

  lemma BatchNonEmpty<T>(s: seq<T>, size: nat, k: nat)
    requires size > 0 && k < NumBatches(|s|, size)
    ensures 0 < |BatchAt(s, size, k)| <= size
  {
    NumBatchesIsCeiling(|s|, size);
    MulMono(k, NumBatches(|s|, size) - 1, size);
  }

  lemma BatchBeyond<T>(s: seq<T>, size: nat, k: nat)
    requires size > 0 && k >= NumBatches(|s|, size)
    ensures BatchAt(s, size, k) == []
  {
    NumBatchesIsCeiling(|s|, size);
    MulMono(NumBatches(|s|, size), k, size);
  }

  /**
   * The batches partition the list: taken in order they give back every item
   * exactly once, every batch is non-empty and holds at most `size` items.
   */
  lemma BatchesPartition<T>(s: seq<T>, size: nat)
    requires size > 0
    ensures FirstBatches(s, size, NumBatches(|s|, size)) == s
    ensures forall k :: 0 <= k < NumBatches(|s|, size) ==> 0 < |BatchAt(s, size, k)| <= size
    ensures forall k :: k >= NumBatches(|s|, size) ==> BatchAt(s, size, k) == []
  {
    NumBatchesIsCeiling(|s|, size);
    FirstBatchesPrefix(s, size, NumBatches(|s|, size));
    assert Tables.Min(NumBatches(|s|, size) * size, |s|) == |s|;
    forall k | 0 <= k < NumBatches(|s|, size)
      ensures 0 < |BatchAt(s, size, k)| <= size
    {
      BatchNonEmpty(s, size, k);
    }
    forall k | k >= NumBatches(|s|, size)
      ensures BatchAt(s, size, k) == []
    {
      BatchBeyond(s, size, k);
    }
  }

  /** Batch k in the 1-based form `[(k-1)*size, min(k*size, n))` is batch k-1 here. */
  lemma OneBasedBatch<T>(s: seq<T>, size: nat, k: nat)
    requires size > 0 && 1 <= k <= NumBatches(|s|, size)
    ensures (k - 1) * size < |s|
    ensures BatchAt(s, size, k - 1) == s[(k - 1) * size .. Tables.Min(k * size, |s|)]
  {
    NumBatchesIsCeiling(|s|, size);
    MulMono(k - 1, NumBatches(|s|, size) - 1, size);
    assert (k - 1) * size + size == k * size;
  }

  lemma DivUnique(x: nat, d: nat, q: nat)
    requires d > 0 && q * d <= x < q * d + d
    ensures x / d == q
  {
    var r := x / d;
    assert x == r * d + x % d;
    if r < q {
      MulMono(r + 1, q, d);
    } else if r > q {
      MulMono(q + 1, r, d);
    }
  }

  /** A loop index `k * size` below n names an existing batch, and one at or past n ends the loop. */
  lemma BatchIndexBound(n: nat, size: nat, k: nat)
    requires size > 0
    ensures k * size < n ==> k < NumBatches(n, size)
    ensures k * size >= n && (k == 0 || (k - 1) * size < n) ==> k == NumBatches(n, size)
  {
    NumBatchesIsCeiling(n, size);
    var m := NumBatches(n, size);
    if k * size < n && k >= m {
      MulMono(m, k, size);
    }
    if k * size >= n && (k == 0 || (k - 1) * size < n) {
      if k == 0 {
        assert n == 0;
      } else {
        assert (k - 1) * size + size == k * size;
        DivUnique(n + size - 1, size, k);
      }
    }
  }

  /** A stepping loop that stops at the first multiple of the size past the end has run every batch. */
  lemma BatchLoopExit<T>(s: seq<T>, size: nat, k: nat, i: nat)
    requires size > 0 && i == k * size && i >= |s| && (k == 0 || i - size < |s|)
    ensures k == NumBatches(|s|, size) && FirstBatches(s, size, k) == s
  {
    if k > 0 {
      MulSucc(k - 1, size);
    }
    BatchIndexBound(|s|, size, k);
    BatchesPartition(s, size);
  }

  /** One pass of a `range(0, n, size)` loop at i == k * size: batch k, and the first k + 1 batches. */
  lemma BatchStep<T>(s: seq<T>, size: nat, k: nat, i: nat)
    requires size > 0 && i == k * size && i < |s|
    ensures s[i..Tables.Min(i + size, |s|)] == BatchAt(s, size, k)
    ensures FirstBatches(s, size, k + 1) == FirstBatches(s, size, k) + BatchAt(s, size, k)
    ensures (k + 1) * size == i + size
  {
    MulSucc(k, size);
  }

  lemma MulSucc(b: nat, size: nat)
    ensures (b + 1) * size == b * size + size
  {
  }

  /**
   * The k-th one-based window `[(k-1)*size, min(k*size, n))` of a batch loop
   * is a valid slice starting where the first k-1 windows end.
   */
  lemma Window(n: nat, size: nat, k: nat)
    requires size > 0 && 1 <= k <= NumBatches(n, size)
    ensures (k - 1) * size < n
    ensures Tables.Min((k - 1) * size, n) == (k - 1) * size
    ensures (k - 1) * size <= Tables.Min(k * size, n) <= n
  {
    NumBatchesIsCeiling(n, size);
    MulMono(k - 1, NumBatches(n, size) - 1, size);
    MulSucc(k - 1, size);
  }

  /** After the last window the loop has covered all n items. */
  lemma WindowsCover(n: nat, size: nat)
    requires size > 0
    ensures Tables.Min(NumBatches(n, size) * size, n) == n
  {
    NumBatchesIsCeiling(n, size);
  }

  /** Batch b in the 0-based form `[b*size, min((b+1)*size, n))`. */
  lemma ZeroBasedBatch<T>(s: seq<T>, size: nat, b: nat)
    requires size > 0 && b < NumBatches(|s|, size)
    ensures b * size < |s| && b * size <= Tables.Min((b + 1) * size, |s|)
    ensures BatchAt(s, size, b) == s[b * size .. Tables.Min((b + 1) * size, |s|)]
  {
    OneBasedBatch(s, size, b + 1);
    MulSucc(b, size);
  }
}
