/** How `GenerateTasks` cuts the input documents into batches: the slices
    `docs[i:min(i+batchSize, len(docs))]` for i = 0, batchSize, 2*batchSize, ...
    The dispatch loop itself is `Pool.GenerateTasks` in module WorkerPool; this
    module holds the specification it is proved against and what is proved
    about that specification. */
module Batching {
  import opened Common

  function Min(a: int, b: int): (r: int) { if a <= b then a else b }

  /** The batches the dispatch loop sends once its index has reached `i`. */
  function BatchesFrom<T>(docs: seq<T>, size: int, i: nat): (r: seq<seq<T>>)
    requires size > 0
    decreases |docs| - i
  {
    if i >= |docs| then [] else [docs[i..Min(i + size, |docs|)]] + BatchesFrom(docs, size, i + size)
  }

  /** Every batch the dispatch loop sends, in the order it sends them. */
  function Batches<T>(docs: seq<T>, size: int): (r: seq<seq<T>>)
    requires size > 0
  {
    BatchesFrom(docs, size, 0)
  }

  lemma {:induction false} FlattenBatchesFrom<T>(docs: seq<T>, size: int, i: nat)
    requires size > 0 && i <= |docs|
    ensures Flatten(BatchesFrom(docs, size, i)) == docs[i..]
    decreases |docs| - i
  {
    if i < |docs| {
      var end := Min(i + size, |docs|);
      var rest := BatchesFrom(docs, size, i + size);
      if i + size <= |docs| {
        FlattenBatchesFrom(docs, size, i + size);
      } else {
        assert rest == [];
      }
      assert BatchesFrom(docs, size, i)[1..] == rest;
      assert docs[i..] == docs[i..end] + docs[end..];
    }
  }

  /** Concatenating the batches in dispatch order gives back the input:
      no document is dropped, duplicated or moved. */
  lemma BatchesFlatten<T>(docs: seq<T>, size: int)
    requires size > 0
    ensures Flatten(Batches(docs, size)) == docs
  {
    FlattenBatchesFrom(docs, size, 0);
  }

  lemma DivUnique(x: int, d: int, q: int, r: int)
    requires d > 0 && 0 <= r < d && x == q * d + r
    ensures x / d == q
  {
    var q', r' := x / d, x % d;
    assert x == q' * d + r';
    if q' < q {
      MulMono(q' + 1, q, d);
    } else if q' > q {
      MulMono(q + 1, q', d);
    }
  }

  lemma DivStep(a: int, size: int)
    requires a >= 0 && size > 0
    ensures (a + size) / size == a / size + 1
  {
    var q, r := a / size, a % size;
    assert a == q * size + r;
    assert a + size == (q + 1) * size + r;
    DivUnique(a + size, size, q + 1, r);
  }

  lemma {:induction false} BatchesFromCount<T>(docs: seq<T>, size: int, i: nat)
    requires size > 0 && i <= |docs|
    ensures |BatchesFrom(docs, size, i)| == (|docs| - i + size - 1) / size
    decreases |docs| - i
  {
    var n := |docs|;
    if i < n {
      var left := n - i - 1;
      DivStep(left, size);
      assert left + size == n - i + size - 1;
      var rest := BatchesFrom(docs, size, i + size);
      assert |BatchesFrom(docs, size, i)| == 1 + |rest|;
      if i + size < n {
        BatchesFromCount(docs, size, i + size);
        assert n - (i + size) + size - 1 == left;
      } else {
        assert rest == [];
        DivUnique(left, size, 0, left);
      }
    }
  }

  /** `GenerateTasks` emits ceil(n / batchSize) batches; in particular none for
      an empty input. */
  lemma BatchesCount<T>(docs: seq<T>, size: int)
    requires size > 0
    ensures |Batches(docs, size)| == (|docs| + size - 1) / size
    ensures docs == [] <==> Batches(docs, size) == []
  {
    BatchesFromCount(docs, size, 0);
  }

  lemma {:induction false} BatchesFromAt<T>(docs: seq<T>, size: int, i: nat, k: nat)
    requires size > 0 && k < |BatchesFrom(docs, size, i)|
    ensures i + k * size < |docs|
    ensures BatchesFrom(docs, size, i)[k] == docs[i + k * size..Min(i + k * size + size, |docs|)]
    ensures i + k * size + size < |docs| ==> k + 1 < |BatchesFrom(docs, size, i)|
    decreases k
  {
    var bs := BatchesFrom(docs, size, i);
    var rest := BatchesFrom(docs, size, i + size);
    assert i < |docs| && bs == [docs[i..Min(i + size, |docs|)]] + rest;
    if k > 0 {
      var start := i + k * size;
      assert i + size + (k - 1) * size == start by {
        assert k * size == (k - 1) * size + size;
      }
      BatchesFromAt(docs, size, i + size, k - 1);
      assert bs[k] == rest[k - 1];
    } else if i + size < |docs| {
      assert |rest| > 0;
    }
  }

  /** Batch k is exactly `docs[k*B : min(k*B+B, n)]`: it holds between 1 and B
      documents, and only the last batch may hold fewer than B. */
  lemma BatchShape<T>(docs: seq<T>, size: int, k: nat)
    requires size > 0 && k < |Batches(docs, size)|
    ensures k * size < |docs|
    ensures Batches(docs, size)[k] == docs[k * size..Min(k * size + size, |docs|)]
    ensures 1 <= |Batches(docs, size)[k]| <= size
    ensures k + 1 < |Batches(docs, size)| ==> |Batches(docs, size)[k]| == size
  {
    BatchesFromAt(docs, size, 0, k);
    if k + 1 < |Batches(docs, size)| {
      BatchesFromAt(docs, size, 0, k + 1);
    }
  }

  /** The number of batches never exceeds `n / batchSize + 1`, the capacity
      the stand-alone loader gives its buffered channels. */
  lemma BatchesWithinCapacity<T>(docs: seq<T>, size: int)
    requires size > 0
    ensures |Batches(docs, size)| <= |docs| / size + 1
  {
    BatchesCount(docs, size);
    DivStep(|docs|, size);
    assert |docs| + size - 1 < |docs| + size;
    DivMonotone(|docs| + size - 1, |docs| + size, size);
  }

  lemma DivMonotone(a: int, b: int, size: int)
    requires 0 <= a <= b && size > 0
    ensures a / size <= b / size
  {
    var qa, qb := a / size, b / size;
    assert a == qa * size + a % size;
    assert b == qb * size + b % size;
    if qa > qb {
      MulMono(qb + 1, qa, size);
    }
  }
}
