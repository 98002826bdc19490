/**
 * Batched uploads, as the ingestion scripts do them: points are appended to
 * a pending batch, the batch is sent and cleared as soon as it holds `size`
 * points, and whatever is pending at the end is sent last. The batches sent
 * are then exactly the points cut into consecutive chunks of `size`.
 */
module Batching {

  /** The points in `xs` cut into consecutive chunks of `size`; only the last
      chunk may be shorter, and no chunk is empty. */
  function Chunks<T>(xs: seq<T>, size: nat): (r: seq<seq<T>>)
    requires size > 0
    decreases |xs|
  {
    if xs == [] then []
    else if |xs| <= size then [xs]
    else [xs[..size]] + Chunks(xs[size..], size)
  }

  function Flatten<T>(xss: seq<seq<T>>): seq<T>
  {
    if xss == [] then [] else xss[0] + Flatten(xss[1..])
  }

  lemma {:induction false} FlattenAppend<T>(xss: seq<seq<T>>, ys: seq<T>)
    ensures Flatten(xss + [ys]) == Flatten(xss) + ys
  {
    if xss == [] {
      assert [] + [ys] == [ys];
    } else {
      assert (xss + [ys])[1..] == xss[1..] + [ys];
      FlattenAppend(xss[1..], ys);
    }
  }

  /** Cutting into chunks loses nothing and reorders nothing. */
  lemma {:induction false} ChunksFlatten<T>(xs: seq<T>, size: nat)
    requires size > 0
    ensures Flatten(Chunks(xs, size)) == xs
    decreases |xs|
  {
    if |xs| > size {
      var rest := Chunks(xs[size..], size);
      ChunksFlatten(xs[size..], size);
      assert ([xs[..size]] + rest)[1..] == rest;
      assert xs[..size] + xs[size..] == xs;
    } else if xs != [] {
      assert [xs][1..] == [];
      assert xs + [] == xs;
    }
  }

  /** Every chunk but the last is full and the last is not empty. */
  lemma {:induction false} ChunksSizes<T>(xs: seq<T>, size: nat)
    requires size > 0
    ensures forall k :: 0 <= k < |Chunks(xs, size)| ==> 0 < |Chunks(xs, size)[k]| <= size
    ensures forall k :: 0 <= k < |Chunks(xs, size)| - 1 ==> |Chunks(xs, size)[k]| == size
    decreases |xs|
  {
    if |xs| > size {
      ChunksSizes(xs[size..], size);
      var rest := Chunks(xs[size..], size);
      assert forall k :: 0 <= k < |rest| ==> 0 < |rest[k]| <= size;
      assert forall k :: 0 <= k < |rest| - 1 ==> |rest[k]| == size;
    }
  }

  /** `n` is a whole number of batches of `size`. */
  predicate Aligned(n: nat, size: nat)
    requires size > 0
    decreases n
  {
    n == 0 || (n >= size && Aligned(n - size, size))
  }

  /** Sending a chunk after a batch-aligned prefix adds exactly that chunk. */
  lemma {:induction false} ChunksAppend<T>(xs: seq<T>, ys: seq<T>, size: nat)
    requires size > 0
    requires Aligned(|xs|, size)
    requires 0 < |ys| <= size
    ensures Chunks(xs + ys, size) == Chunks(xs, size) + [ys]
    decreases |xs|
  {
    if xs == [] {
      assert xs + ys == ys;
    } else {
      var zs := xs + ys;
      assert zs[..size] == xs[..size];
      assert zs[size..] == xs[size..] + ys;
      ChunksAppend(xs[size..], ys, size);
      if |xs| == size {
        assert xs[size..] == [];
        assert xs[..size] == xs;
      }
    }
  }

  /** The batches sent so far are the flushed items cut into chunks of
      `size`, and the pending batch is not yet full. */
  ghost predicate Batched<T>(batches: seq<seq<T>>, flushed: seq<T>, pending: seq<T>, size: nat)
    requires size > 0
  {
    && Aligned(|flushed|, size)
    && batches == Chunks(flushed, size) && flushed == Flatten(batches)
    && |pending| < size
  }

  /** An item joins the pending batch, which is sent (and emptied) as soon as
      it holds `size` items; `sent` is the number of items sent by this call. */
  method Push<T>(batches: seq<seq<T>>, pending: seq<T>, ghost flushed: seq<T>, x: T, size: nat)
    returns (batches': seq<seq<T>>, pending': seq<T>, ghost flushed': seq<T>, sent: nat)
    requires size > 0
    requires Batched(batches, flushed, pending, size)
    ensures Batched(batches', flushed', pending', size)
    ensures flushed' + pending' == flushed + pending + [x]
    ensures |flushed'| == |flushed| + sent
    ensures Flatten(batches') + pending' == Flatten(batches) + pending + [x]
    ensures |pending'| < size && |Flatten(batches')| == |Flatten(batches)| + sent
  {
    batches', pending', flushed', sent := batches, pending + [x], flushed, 0;
    if |pending'| >= size {
      assert Aligned(|flushed + pending'|, size) by {
        assert |flushed + pending'| - size == |flushed|;
      }
      ChunksAppend(flushed, pending', size);
      FlattenAppend(batches, pending');
      batches' := batches + [pending'];
      sent := |pending'|;
      flushed' := flushed + pending';
      pending' := [];
      assert flushed' + pending' == flushed';
    }
  }

  /** The final send of whatever is pending: afterwards every item pushed has
      been sent, in chunks of `size`. */
  method Drain<T>(batches: seq<seq<T>>, pending: seq<T>, ghost flushed: seq<T>, size: nat)
    returns (batches': seq<seq<T>>, sent: nat)
    requires size > 0
    requires Batched(batches, flushed, pending, size)
    ensures batches' == Chunks(flushed + pending, size)
    ensures Flatten(batches') == flushed + pending
    ensures sent == |pending|
  {
    batches', sent := batches, 0;
    if |pending| > 0 {
      ChunksAppend(flushed, pending, size);
      batches' := batches + [pending];
      sent := |pending|;
    } else {
      assert flushed + pending == flushed;
    }
    ChunksFlatten(flushed + pending, size);
  }
}
