/**
 * Splitting a sequence into consecutive batches of at most `size` items,
 * the way the retriever and the encoder walk their inputs.
 */
module Batching {
  import opened Wrappers

  function Batchify<T>(xs: seq<T>, size: nat): (batches: seq<seq<T>>)
    requires size > 0
    ensures forall j :: 0 <= j < |batches| ==> 0 < |batches[j]| <= size
    decreases |xs|
  {
    if |xs| == 0 then []
    else if |xs| <= size then [xs]
    else [xs[..size]] + Batchify(xs[size..], size)
  }

  /** Where batch j starts: j * size, by repeated addition. */
  function BatchStart(j: nat, size: nat): nat
  {
    if j == 0 then 0 else BatchStart(j - 1, size) + size
  }

  /** BatchStart is the product of the batch index and the batch size. */
  lemma {:induction false} BatchStartIsProduct(j: nat, size: nat)
    ensures BatchStart(j, size) == j * size
  {
    if j > 0 {
      BatchStartIsProduct(j - 1, size);
    }
  }

  /** Number of batches `n` items fall into. */
  function BatchCount(n: nat, size: nat): nat
    requires size > 0
    decreases n
  {
    if n == 0 then 0 else if n <= size then 1 else 1 + BatchCount(n - size, size)
  }

  /** Batch j exists exactly when it starts before the end of the `n` items. */
  lemma {:induction false} BatchCountStart(n: nat, size: nat, j: nat)
    requires size > 0
    ensures j < BatchCount(n, size) <==> BatchStart(j, size) < n
    decreases n
  {
    if j > 0 {
      BatchStartShift(j - 1, size);
      if n > size {
        BatchCountStart(n - size, size, j - 1);
      }
    }
  }

  /** Size of batch j of `n` items: up to `size`, fewer in the last batch, 0 past the end. */
  function BatchLen(n: nat, size: nat, j: nat): nat
  {
    var start := BatchStart(j, size);
    if start < n then Min(start + size, n) - start else 0
  }

  function Flatten<T>(batches: seq<seq<T>>): seq<T>
  {
    if |batches| == 0 then [] else batches[0] + Flatten(batches[1..])
  }

  /** Concatenating the batches gives back the input, in order. */
  lemma {:induction false} FlattenBatchify<T>(xs: seq<T>, size: nat)
    requires size > 0
    ensures Flatten(Batchify(xs, size)) == xs
    decreases |xs|
  {
    if |xs| > size {
      var b := Batchify(xs, size);
      assert b[1..] == Batchify(xs[size..], size);
      FlattenBatchify(xs[size..], size);
      assert xs == xs[..size] + xs[size..];
    } else if |xs| > 0 {
      assert Batchify(xs, size)[1..] == [];
    }
  }

  lemma {:induction false} FlattenSnoc<T>(batches: seq<seq<T>>, last: seq<T>)
    ensures Flatten(batches + [last]) == Flatten(batches) + last
  {
    if |batches| > 0 {
      assert (batches + [last])[1..] == batches[1..] + [last];
      FlattenSnoc(batches[1..], last);
    } else {
      assert ([] + [last])[1..] == [];
    }
  }

  /** Appending a part whose items follow the concatenation so far extends it to the longer sequence. */
  lemma FlattenExtends<T>(parts: seq<seq<T>>, last: seq<T>, sofar: seq<T>, all: seq<T>)
    requires Flatten(parts) == sofar && all == sofar + last
    ensures Flatten(parts + [last]) == all
  {
    FlattenSnoc(parts, last);
  }

  /** How many batches there are depends only on |xs|, and they cover it. */
  lemma {:induction false} BatchifyCount<T>(xs: seq<T>, size: nat)
    requires size > 0
    ensures |Batchify(xs, size)| == BatchCount(|xs|, size)
    ensures BatchStart(|Batchify(xs, size)|, size) >= |xs|
    decreases |xs|
  {
    if |xs| > size {
      BatchifyCount(xs[size..], size);
      BatchStartShift(|Batchify(xs[size..], size)|, size);
    }
  }

  lemma {:induction false} BatchStartShift(j: nat, size: nat)
    ensures BatchStart(j + 1, size) == BatchStart(j, size) + size
    ensures j > 0 ==> BatchStart(j, size) == size + BatchStart(j - 1, size)
  {
    if j > 0 {
      BatchStartShift(j - 1, size);
    }
  }

  /** Batch j is the slice of at most `size` items that starts at BatchStart(j, size). */
  lemma {:induction false} BatchifyAt<T>(xs: seq<T>, size: nat, j: nat)
    requires size > 0 && j < |Batchify(xs, size)|
    ensures BatchStart(j, size) < |xs|
    ensures Batchify(xs, size)[j] == xs[BatchStart(j, size) .. Min(BatchStart(j, size) + size, |xs|)]
    decreases |xs|
  {
    if j == 0 {
      BatchifyHead(xs, size);
      assert xs[0 .. Min(size, |xs|)] == xs[..Min(size, |xs|)];
    } else {
      BatchifyTail(xs, size);
      var rest := xs[size..];
      BatchifyAt(rest, size, j - 1);
      var start := BatchStart(j - 1, size);
      BatchStartShift(j - 1, size);
      var stop := Min(start + size, |rest|);
      assert stop + size == Min(BatchStart(j, size) + size, |xs|);
      DropSlice(xs, size, start, stop);
      calc {
        Batchify(xs, size)[j];
        Batchify(xs, size)[1..][j - 1];
        Batchify(rest, size)[j - 1];
        rest[start..stop];
        xs[start + size .. stop + size];
        xs[BatchStart(j, size) .. Min(BatchStart(j, size) + size, |xs|)];
      }
    }
  }

  /** The first batch is the first `size` items, or all of them when fewer. */
  lemma BatchifyHead<T>(xs: seq<T>, size: nat)
    requires size > 0 && |Batchify(xs, size)| > 0
    ensures 0 < |xs| && Batchify(xs, size)[0] == xs[..Min(size, |xs|)]
  {
  }

  /** Past the first batch, the batches are those of the rest. */
  lemma BatchifyTail<T>(xs: seq<T>, size: nat)
    requires size > 0 && |Batchify(xs, size)| > 1
    ensures size < |xs| && Batchify(xs, size)[1..] == Batchify(xs[size..], size)
  {
  }

  lemma DropSlice<T>(xs: seq<T>, n: nat, lo: nat, hi: nat)
    requires n <= |xs| && lo <= hi <= |xs| - n
    ensures xs[n..][lo..hi] == xs[lo + n .. hi + n]
  {
  }

  /** Batch j, item by item. */
  lemma BatchItems<T>(xs: seq<T>, size: nat, j: nat)
    requires size > 0 && j < |Batchify(xs, size)|
    ensures BatchStart(j, size) < |xs|
    ensures BatchStart(j, size) + |Batchify(xs, size)[j]| == Min(BatchStart(j, size) + size, |xs|)
    ensures |Batchify(xs, size)[j]| == BatchLen(|xs|, size, j)
    ensures forall b :: 0 <= b < |Batchify(xs, size)[j]| ==> Batchify(xs, size)[j][b] == xs[BatchStart(j, size) + b]
  {
    BatchifyAt(xs, size, j);
  }

  /** `f` applied to every item, in order. */
  function Map<T, U>(xs: seq<T>, f: T -> U): (ys: seq<U>)
    ensures |ys| == |xs| && forall i :: 0 <= i < |xs| ==> ys[i] == f(xs[i])
  {
    seq(|xs|, i requires 0 <= i < |xs| => f(xs[i]))
  }

  /** A batch's images under `f` are the matching slice of the images of all the items. */
  lemma MappedBatch<T, U>(xs: seq<T>, size: nat, j: nat, f: T -> U, ys: seq<U>)
    requires size > 0 && j < |Batchify(xs, size)| && |ys| == |Batchify(xs, size)[j]|
    requires forall b :: 0 <= b < |ys| ==> ys[b] == f(Batchify(xs, size)[j][b])
    ensures BatchStart(j, size) + |ys| <= |xs|
    ensures ys == Map(xs, f)[BatchStart(j, size) .. BatchStart(j, size) + |ys|]
  {
    BatchItems(xs, size, j);
    var start := BatchStart(j, size);
    assert forall b :: 0 <= b < |ys| ==> Batchify(xs, size)[j][b] == xs[start + b];
  }

  /** Appending the scores of batch j extends the concatenation by batch j's slice. */
  lemma ConcatStep<T>(acc: seq<seq<T>>, v: seq<T>, all: seq<T>, j: nat, size: nat)
    requires Flatten(acc) == all[..Min(BatchStart(j, size), |all|)]
    requires BatchStart(j, size) < |all| && v == all[BatchStart(j, size) .. Min(BatchStart(j, size) + size, |all|)]
    ensures Flatten(acc + [v]) == all[..Min(BatchStart(j + 1, size), |all|)]
  {
    FlattenSnoc(acc, v);
    var start := BatchStart(j, size);
    BatchStartShift(j, size);
    assert all[..start] + all[start..Min(start + size, |all|)] == all[..Min(start + size, |all|)];
  }

  /** torch.cat: concatenation of the per-batch vectors; it fails on an empty list. */
  function Cat<T>(parts: seq<seq<T>>): (r: Option<seq<T>>)
    ensures r.None? <==> |parts| == 0
  {
    if |parts| == 0 then None else Some(Flatten(parts))
  }
}
