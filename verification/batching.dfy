/** `CustomDataset` and the non-shuffling `DataLoader` batching that
    `predict` (batch size 64) and `evaluate` (batch size 32) rely on. */
module Batching {
  import opened Outcomes

  /** `CustomDataset`: inputs `x` and targets `y`, indexed together. Its
      length is the number of inputs; nothing checks that `y` is as long. */
  datatype Dataset<X, Y> = Dataset(x: seq<X>, y: seq<Y>) {

    /** `__len__`: the number of inputs. */
    function Len(): nat {
      |x|
    }

    /** `__getitem__` at a position the loader asks for: the pair of input
        and target, or the IndexError raised when there is no such target. */
    function Item(i: nat): (r: Result<(X, Y)>)
      requires i < Len()
      ensures r.Ok? <==> i < |y|
      ensures r.Ok? ==> r.value.0 == x[i] && r.value.1 == y[i]
    {
      if i < |y| then Ok((x[i], y[i])) else Err(IndexOutOfRange)
    }
  }

  /** The pairs the dataset yields, in index order. */
  function Pairs<X, Y>(ds: Dataset<X, Y>): (ps: seq<(X, Y)>)
    requires |ds.y| >= |ds.x|
    ensures |ps| == ds.Len()
    ensures forall i :: 0 <= i < |ps| ==> ds.Item(i) == Ok(ps[i])
  {
    seq(|ds.x|, i requires 0 <= i < |ds.x| => (ds.x[i], ds.y[i]))
  }

  /** Concatenation of a sequence of batches. */
  function Flatten<T>(ss: seq<seq<T>>): seq<T> {
    if |ss| == 0 then [] else ss[0] + Flatten(ss[1..])
  }

  /** Flattening distributes over concatenation of batch lists. */
  lemma {:induction false} FlattenAppend<T>(a: seq<seq<T>>, b: seq<seq<T>>)
    ensures Flatten(a + b) == Flatten(a) + Flatten(b)
  {
    if |a| > 0 {
      assert (a + b)[1..] == a[1..] + b;
      FlattenAppend(a[1..], b);
    } else {
      assert a + b == b;
    }
  }

  /** The number of batches a loader makes of n rows, one full batch at a time. */
  function NumBatches(n: nat, size: nat): nat
    requires size > 0
    decreases n
  {
    if n == 0 then 0
    else if n <= size then 1
    else 1 + NumBatches(n - size, size)
  }

  /** `NumBatches` is the ceiling of n / size: the fewest batches of `size`
      rows that hold all n rows. */
  lemma {:induction false} NumBatchesIsCeiling(n: nat, size: nat)
    requires size > 0
    ensures NumBatches(n, size) * size >= n
    ensures n > 0 ==> (NumBatches(n, size) - 1) * size < n
    decreases n
  {
    if n > size {
      var k := NumBatches(n - size, size);
      NumBatchesIsCeiling(n - size, size);
      assert (k + 1) * size == k * size + size;
      assert k * size == (k - 1) * size + size;
    }
  }

  /** Contiguous, order-preserving batches of `size` rows; only the last
      batch may be shorter, and no batch is empty. */
  function Chunk<T>(rows: seq<T>, size: nat): (batches: seq<seq<T>>)
    requires size > 0
    ensures Flatten(batches) == rows
    ensures |batches| == NumBatches(|rows|, size)
    ensures forall i :: 0 <= i < |batches| ==> 0 < |batches[i]| <= size
    ensures forall i :: 0 <= i < |batches| - 1 ==> |batches[i]| == size
    decreases |rows|
  {
    if |rows| == 0 then []
    else if |rows| <= size then
      assert Flatten([rows]) == rows + Flatten([]);
      [rows]
    else
      var rest := Chunk(rows[size..], size);
      assert ([rows[..size]] + rest)[1..] == rest;
      [rows[..size]] + rest
  }

  /** A non-shuffling `DataLoader` over the dataset: its batches of
      (input, target) pairs in row order, or the IndexError raised when some
      input has no target. */
  function Batches<X, Y>(ds: Dataset<X, Y>, size: nat): (r: Result<seq<seq<(X, Y)>>>)
    requires size > 0
    ensures r.Ok? <==> |ds.y| >= |ds.x|
    ensures r.Ok? ==> Flatten(r.value) == Pairs(ds)
    ensures r.Ok? ==> |r.value| == NumBatches(ds.Len(), size)
    ensures r.Ok? ==> forall i :: 0 <= i < |r.value| ==> 0 < |r.value[i]| <= size
    ensures r.Ok? ==> forall i :: 0 <= i < |r.value| - 1 ==> |r.value[i]| == size
  {
    if |ds.y| < |ds.x| then
      assert ds.Item(|ds.y|).Err?;
      Err(IndexOutOfRange)
    else
      Ok(Chunk(Pairs(ds), size))
  }
}
