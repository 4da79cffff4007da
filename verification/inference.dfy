/** Inference and evaluation: `get_loss`, `Forecaster.predict` and
    `Forecaster.evaluate`.

    The network is abstracted: `f` maps one input window to the network's
    output row (`forward` applies no dropout or other batch-dependent layer,
    so each row's output depends on that row alone), and `rowLoss` gives
    the mean squared error of one (input, target) row.
    Both are parameters because the floating-point tensor arithmetic that
    computes them is not part of this model. Both are total: the network is
    taken to accept every window and every target to have its prediction's
    shape, so neither the forward pass's RuntimeError nor that of a loss
    over targets that cannot be broadcast arises here. */
module Inference {
  import opened Outcomes
  import opened Slicing
  import opened Batching

  /** Rows per batch in `predict` (`self.batch_size`). */
  const PredictBatchSize: nat := 64

  /** Rows per batch in `evaluate`. */
  const EvaluateBatchSize: nat := 32

  /** The sum of a list of reals, accumulated left to right. */
  function Sum(xs: seq<real>): real {
    if |xs| == 0 then 0.0 else Sum(xs[..|xs| - 1]) + xs[|xs| - 1]
  }

  /** Sum distributes over concatenation. */
  lemma {:induction false} SumAppend(a: seq<real>, b: seq<real>)
    ensures Sum(a + b) == Sum(a) + Sum(b)
    decreases |b|
  {
    if |b| > 0 {
      assert (a + b)[..|a + b| - 1] == a + b[..|b| - 1];
      SumAppend(a, b[..|b| - 1]);
    } else {
      assert a + b == a;
    }
  }

  /** A sum of values in [lo, hi] lies in [n * lo, n * hi]. */
  lemma {:induction false} SumBounds(xs: seq<real>, lo: real, hi: real)
    requires forall i :: 0 <= i < |xs| ==> lo <= xs[i] <= hi
    ensures (|xs| as real) * lo <= Sum(xs) <= (|xs| as real) * hi
  {
    if |xs| > 0 {
      SumBounds(xs[..|xs| - 1], lo, hi);
    }
  }

  /** A sum of n copies of c is n * c. */
  lemma {:induction false} SumConstant(xs: seq<real>, c: real)
    requires forall i :: 0 <= i < |xs| ==> xs[i] == c
    ensures Sum(xs) == (|xs| as real) * c
  {
    if |xs| > 0 {
      SumConstant(xs[..|xs| - 1], c);
    }
  }

  /** `get_loss`: the per-batch loss values added up and divided by the
      number of batches (`len(data_loader)`); a loader without batches
      divides by zero. */
  function GetLoss(batchLosses: seq<real>): (r: Result<real>)
    ensures r.Ok? <==> |batchLosses| > 0
    ensures r.Err? ==> r.error == DivisionByZero
    ensures r.Ok? ==> r.value * (|batchLosses| as real) == Sum(batchLosses)
  {
    if |batchLosses| == 0 then Err(DivisionByZero)
    else Ok(Sum(batchLosses) / (|batchLosses| as real))
  }

  /** The averaged loss lies between the smallest and the largest batch loss. */
  lemma GetLossWithinBatchRange(batchLosses: seq<real>, lo: real, hi: real)
    requires |batchLosses| > 0
    requires forall i :: 0 <= i < |batchLosses| ==> lo <= batchLosses[i] <= hi
    ensures lo <= GetLoss(batchLosses).value <= hi
  {
    SumBounds(batchLosses, lo, hi);
    var n := |batchLosses| as real;
    var r := GetLoss(batchLosses).value;
    assert r * n == Sum(batchLosses);
  }

  /** The smallest value of a non-empty list. */
  function Smallest(xs: seq<real>): (m: real)
    requires |xs| > 0
    ensures m in xs
    ensures forall i :: 0 <= i < |xs| ==> m <= xs[i]
  {
    if |xs| == 1 then xs[0]
    else
      var m := Smallest(xs[1..]);
      if xs[0] <= m then xs[0] else m
  }

  /** The largest value of a non-empty list. */
  function Largest(xs: seq<real>): (m: real)
    requires |xs| > 0
    ensures m in xs
    ensures forall i :: 0 <= i < |xs| ==> xs[i] <= m
  {
    if |xs| == 1 then xs[0]
    else
      var m := Largest(xs[1..]);
      if m <= xs[0] then xs[0] else m
  }

  /** The forecast for one input row: the network output sliced with
      `[-decode_len:]`. */
  function RowPrediction<X>(f: X -> seq<real>, x: X, decodeLen: int): seq<real> {
    SliceFrom(f(x), -decodeLen)
  }

  /** The forecasts for the rows of one batch, in batch order; the targets
      are carried along by the batch but never looked at. */
  function PredictRows<X, Y>(f: X -> seq<real>, rows: seq<(X, Y)>, decodeLen: int): (r: seq<seq<real>>)
    ensures |r| == |rows|
  {
    seq(|rows|, i requires 0 <= i < |rows| => RowPrediction(f, rows[i].0, decodeLen))
  }

  /** The per-batch forecast arrays that `predict` collects in `all_preds`. */
  function PredictBatches<X, Y>(f: X -> seq<real>, batches: seq<seq<(X, Y)>>, decodeLen: int): (r: seq<seq<seq<real>>>)
    ensures |r| == |batches|
  {
    seq(|batches|, j requires 0 <= j < |batches| => PredictRows(f, batches[j], decodeLen))
  }

  /** Concatenating per-batch forecasts equals forecasting the concatenated
      rows: how the rows are cut into batches does not matter. */
  lemma {:induction false} ConcatenatedBatchForecasts<X, Y>(f: X -> seq<real>, batches: seq<seq<(X, Y)>>, decodeLen: int)
    ensures Flatten(PredictBatches(f, batches, decodeLen)) == PredictRows(f, Flatten(batches), decodeLen)
  {
    if |batches| > 0 {
      var pb := PredictBatches(f, batches, decodeLen);
      assert pb[1..] == PredictBatches(f, batches[1..], decodeLen);
      ConcatenatedBatchForecasts(f, batches[1..], decodeLen);
      var first := batches[0];
      var rest := Flatten(batches[1..]);
      assert PredictRows(f, first + rest, decodeLen)
          == PredictRows(f, first, decodeLen) + PredictRows(f, rest, decodeLen);
    }
  }

  /** `predict`: the forecasts of all input rows in their original order,
      row i being `f(X[i])[-decode_len:]`. It fails with an IndexError when
      some input has no target (the dataset indexes `y` although it never
      uses it) and with a ValueError from `np.concatenate` when there is no
      input row at all. */
  function Predict<X, Y>(f: X -> seq<real>, ds: Dataset<X, Y>, decodeLen: int, batchSize: nat): (r: Result<seq<seq<real>>>)
    requires batchSize > 0
    ensures r.Ok? <==> 0 < |ds.x| <= |ds.y|
    ensures r.Err? ==> r.error == (if |ds.y| < |ds.x| then IndexOutOfRange else EmptyConcatenation)
    ensures r.Ok? ==> |r.value| == |ds.x|
    ensures r.Ok? ==> forall i :: 0 <= i < |ds.x| ==> r.value[i] == RowPrediction(f, ds.x[i], decodeLen)
  {
    var batches :- Batches(ds, batchSize);
    if |batches| == 0 then
      Err(EmptyConcatenation)
    else
      ConcatenatedBatchForecasts(f, batches, decodeLen);
      Ok(Flatten(PredictBatches(f, batches, decodeLen)))
  }

  /** The batch size never changes what `predict` returns. */
  lemma PredictIndependentOfBatchSize<X, Y>(f: X -> seq<real>, ds: Dataset<X, Y>, decodeLen: int, b1: nat, b2: nat)
    requires b1 > 0 && b2 > 0
    ensures Predict(f, ds, decodeLen, b1) == Predict(f, ds, decodeLen, b2)
  {
    var r1 := Predict(f, ds, decodeLen, b1);
    var r2 := Predict(f, ds, decodeLen, b2);
    if r1.Ok? {
      assert r1.value == r2.value;
    }
  }

  /** The target values never reach the forecasts: two datasets with the
      same inputs, each with a target for every input, forecast the same. */
  lemma PredictIgnoresTargets<X, Y>(f: X -> seq<real>, x: seq<X>, y1: seq<Y>, y2: seq<Y>, decodeLen: int, batchSize: nat)
    requires batchSize > 0
    requires |y1| >= |x| && |y2| >= |x|
    ensures Predict(f, Dataset(x, y1), decodeLen, batchSize) == Predict(f, Dataset(x, y2), decodeLen, batchSize)
  {
    var r1 := Predict(f, Dataset(x, y1), decodeLen, batchSize);
    var r2 := Predict(f, Dataset(x, y2), decodeLen, batchSize);
    if r1.Ok? {
      assert r1.value == r2.value;
    }
  }

  /** Output shape: when the network returns rows of width `width` (its
      `encode_len`) and 0 < decode_len <= width, every forecast has exactly
      decode_len entries, the last ones of the network row; decode_len = 0
      keeps the whole row. */
  lemma PredictShape<X, Y>(f: X -> seq<real>, ds: Dataset<X, Y>, decodeLen: int, width: nat)
    requires forall i :: 0 <= i < |ds.x| ==> |f(ds.x[i])| == width
    requires 0 < |ds.x| <= |ds.y|
    ensures 0 < decodeLen <= width ==>
      forall i :: 0 <= i < |ds.x| ==>
        var row := Predict(f, ds, decodeLen, PredictBatchSize).value[i];
        |row| == decodeLen && row == f(ds.x[i])[width - decodeLen..]
    ensures decodeLen == 0 ==>
      forall i :: 0 <= i < |ds.x| ==> Predict(f, ds, decodeLen, PredictBatchSize).value[i] == f(ds.x[i])
  {
    forall i | 0 <= i < |ds.x| {
      NegatedStartSlice(f(ds.x[i]), decodeLen);
    }
  }

  /** The per-row losses of a batch. */
  function RowLosses<X, Y>(rowLoss: (X, Y) -> real, rows: seq<(X, Y)>): (r: seq<real>)
    ensures |r| == |rows|
  {
    seq(|rows|, i requires 0 <= i < |rows| => rowLoss(rows[i].0, rows[i].1))
  }

  /** The loss of one batch: `MSELoss` averages over all entries of the
      batch, which for rows of equal width is the mean of the row losses. */
  function BatchLoss<X, Y>(rowLoss: (X, Y) -> real, batch: seq<(X, Y)>): real
    requires |batch| > 0
  {
    Sum(RowLosses(rowLoss, batch)) / (|batch| as real)
  }

  /** The loss of every batch a loader yields. */
  function BatchLosses<X, Y>(rowLoss: (X, Y) -> real, batches: seq<seq<(X, Y)>>): (r: seq<real>)
    requires forall j :: 0 <= j < |batches| ==> |batches[j]| > 0
    ensures |r| == |batches|
  {
    seq(|batches|, j requires 0 <= j < |batches| => BatchLoss(rowLoss, batches[j]))
  }

  /** `evaluate`: the average of the per-batch losses over non-shuffled
      batches of 32 rows. It fails with an IndexError when some input has no
      target and divides by zero when there is no row. */
  function Evaluate<X, Y>(rowLoss: (X, Y) -> real, ds: Dataset<X, Y>): (r: Result<real>)
    ensures r.Ok? <==> 0 < |ds.x| <= |ds.y|
    ensures r.Err? ==> r.error == (if |ds.y| < |ds.x| then IndexOutOfRange else DivisionByZero)
    ensures r.Ok? ==>
      var losses := RowLosses(rowLoss, Pairs(ds));
      Smallest(losses) <= r.value <= Largest(losses)
  {
    var batches :- Batches(ds, EvaluateBatchSize);
    if |batches| == 0 then Err(DivisionByZero)
    else
      var losses := RowLosses(rowLoss, Pairs(ds));
      RowsWithinExtremes(rowLoss, Pairs(ds));
      BatchLossesWithin(rowLoss, batches, Smallest(losses), Largest(losses));
      GetLossWithinBatchRange(BatchLosses(rowLoss, batches), Smallest(losses), Largest(losses));
      GetLoss(BatchLosses(rowLoss, batches))
  }

  /** `evaluate` is `get_loss` over the row-order batches of 32, so its
      divisor is their count, the ceiling of the row count over 32. */
  lemma EvaluateAveragesLoaderBatches<X, Y>(rowLoss: (X, Y) -> real, ds: Dataset<X, Y>)
    requires |ds.x| <= |ds.y|
    ensures |Chunk(Pairs(ds), EvaluateBatchSize)| == NumBatches(|ds.x|, EvaluateBatchSize)
    ensures Evaluate(rowLoss, ds) == GetLoss(BatchLosses(rowLoss, Chunk(Pairs(ds), EvaluateBatchSize)))
  {
    assert Batches(ds, EvaluateBatchSize) == Ok(Chunk(Pairs(ds), EvaluateBatchSize));
  }

  /** Every row loss lies between the smallest and the largest row loss. */
  lemma RowsWithinExtremes<X, Y>(rowLoss: (X, Y) -> real, rows: seq<(X, Y)>)
    requires |rows| > 0
    ensures LossesWithin(rowLoss, rows, Smallest(RowLosses(rowLoss, rows)), Largest(RowLosses(rowLoss, rows)))
  {
    var losses := RowLosses(rowLoss, rows);
    forall i | 0 <= i < |rows|
      ensures Smallest(losses) <= rowLoss(rows[i].0, rows[i].1) <= Largest(losses)
    {
      assert losses[i] == rowLoss(rows[i].0, rows[i].1);
    }
  }

  /** Every row of the rows has a loss in [lo, hi]. */
  predicate LossesWithin<X, Y>(rowLoss: (X, Y) -> real, rows: seq<(X, Y)>, lo: real, hi: real) {
    forall i :: 0 <= i < |rows| ==> lo <= rowLoss(rows[i].0, rows[i].1) <= hi
  }

  /** A batch loss is a mean of row losses, so when all rows of all batches
      have losses in [lo, hi], so has every batch loss. */
  lemma {:induction false} BatchLossesWithin<X, Y>(rowLoss: (X, Y) -> real, batches: seq<seq<(X, Y)>>, lo: real, hi: real)
    requires forall j :: 0 <= j < |batches| ==> |batches[j]| > 0
    requires LossesWithin(rowLoss, Flatten(batches), lo, hi)
    ensures forall j :: 0 <= j < |batches| ==> lo <= BatchLosses(rowLoss, batches)[j] <= hi
    decreases |batches|
  {
    if |batches| > 0 {
      var head := batches[0];
      var rest := batches[1..];
      var flat := Flatten(batches);
      assert flat == head + Flatten(rest);
      assert LossesWithin(rowLoss, head, lo, hi) by {
        forall i | 0 <= i < |head|
          ensures lo <= rowLoss(head[i].0, head[i].1) <= hi
        {
          assert head[i] == flat[i];
          assert lo <= rowLoss(flat[i].0, flat[i].1) <= hi;
        }
      }
      assert LossesWithin(rowLoss, Flatten(rest), lo, hi) by {
        forall i | 0 <= i < |Flatten(rest)|
          ensures lo <= rowLoss(Flatten(rest)[i].0, Flatten(rest)[i].1) <= hi
        {
          assert Flatten(rest)[i] == flat[|head| + i];
          assert lo <= rowLoss(flat[|head| + i].0, flat[|head| + i].1) <= hi;
        }
      }
      BatchLossesWithin(rowLoss, rest, lo, hi);
      GetLossWithinBatchRange(RowLosses(rowLoss, head), lo, hi);
      assert GetLoss(RowLosses(rowLoss, head)).value == BatchLoss(rowLoss, head);
      forall j | 0 <= j < |batches|
        ensures lo <= BatchLosses(rowLoss, batches)[j] <= hi
      {
        if j > 0 {
          assert BatchLosses(rowLoss, batches)[j] == BatchLosses(rowLoss, rest)[j - 1];
        }
      }
    }
  }

  /** The losses of a batch list, one batch at a time. */
  lemma BatchLossesCons<X, Y>(rowLoss: (X, Y) -> real, batches: seq<seq<(X, Y)>>)
    requires |batches| > 0 && forall j :: 0 <= j < |batches| ==> |batches[j]| > 0
    ensures Sum(BatchLosses(rowLoss, batches)) == BatchLoss(rowLoss, batches[0]) + Sum(BatchLosses(rowLoss, batches[1..]))
  {
    var head := BatchLoss(rowLoss, batches[0]);
    var rest := BatchLosses(rowLoss, batches[1..]);
    assert BatchLosses(rowLoss, batches) == [head] + rest;
    SumAppend([head], rest);
    assert [head][..0] == [];
  }

  /** The row losses of concatenated rows add up. */
  lemma RowLossesAppend<X, Y>(rowLoss: (X, Y) -> real, a: seq<(X, Y)>, b: seq<(X, Y)>)
    ensures Sum(RowLosses(rowLoss, a + b)) == Sum(RowLosses(rowLoss, a)) + Sum(RowLosses(rowLoss, b))
  {
    assert RowLosses(rowLoss, a + b) == RowLosses(rowLoss, a) + RowLosses(rowLoss, b);
    SumAppend(RowLosses(rowLoss, a), RowLosses(rowLoss, b));
  }

  /** With a multiple of 32 rows every evaluation batch is full, so the
      batch losses add up to the row losses divided by 32. */
  lemma {:induction false} FullBatchLossSum<X, Y>(rowLoss: (X, Y) -> real, rows: seq<(X, Y)>)
    requires |rows| % 32 == 0
    ensures |Chunk(rows, 32)| * 32 == |rows|
    ensures Sum(BatchLosses(rowLoss, Chunk(rows, 32))) == Sum(RowLosses(rowLoss, rows)) / 32.0
    decreases |rows|
  {
    if |rows| == 32 {
      assert Chunk(rows, 32) == [rows];
      BatchLossesCons(rowLoss, [rows]);
      assert BatchLosses(rowLoss, []) == [];
    } else if |rows| > 32 {
      var head := rows[..32];
      var tail := rows[32..];
      FullBatchLossSum(rowLoss, tail);
      var bs := Chunk(rows, 32);
      assert bs[0] == head && bs[1..] == Chunk(tail, 32);
      BatchLossesCons(rowLoss, bs);
      assert rows == head + tail;
      RowLossesAppend(rowLoss, head, tail);
      var sh := Sum(RowLosses(rowLoss, head));
      var st := Sum(RowLosses(rowLoss, tail));
      assert BatchLoss(rowLoss, bs[0]) == sh / 32.0;
      assert Sum(BatchLosses(rowLoss, bs[1..])) == st / 32.0;
      assert sh / 32.0 + st / 32.0 == (sh + st) / 32.0;
      assert Sum(RowLosses(rowLoss, rows)) == sh + st;
    }
  }

  /** A single batch: its loss is the mean of its row losses. */
  lemma SingleBatchLossSum<X, Y>(rowLoss: (X, Y) -> real, rows: seq<(X, Y)>)
    requires 0 < |rows| <= 32
    ensures Chunk(rows, 32) == [rows]
    ensures Sum(BatchLosses(rowLoss, Chunk(rows, 32))) == Sum(RowLosses(rowLoss, rows)) / (|rows| as real)
  {
    BatchLossesCons(rowLoss, [rows]);
    assert BatchLosses(rowLoss, []) == [];
  }

  /** Dividing by 32 and then by k is dividing by 32 * k. */
  lemma DivideTwice(s: real, k: real)
    requires k > 0.0
    ensures (s / 32.0) / k == s / (32.0 * k)
  {
    var t := (s / 32.0) / k;
    assert t * k == s / 32.0;
    assert t * (32.0 * k) == s;
  }

  /** When every evaluation batch has the same size (a single batch of at
      most 32 rows, or a multiple of 32 rows), `evaluate` is the plain
      per-row mean loss. */
  lemma EvaluateOfEqualBatchesIsRowMean<X, Y>(rowLoss: (X, Y) -> real, ds: Dataset<X, Y>)
    requires 0 < |ds.x| <= |ds.y|
    requires |ds.x| <= 32 || |ds.x| % 32 == 0
    ensures Evaluate(rowLoss, ds) == Ok(Sum(RowLosses(rowLoss, Pairs(ds))) / (|ds.x| as real))
  {
    var rows := Pairs(ds);
    var bs := Chunk(rows, 32);
    assert Batches(ds, EvaluateBatchSize) == Ok(bs);
    var bl := BatchLosses(rowLoss, bs);
    var k := |bs| as real;
    var s := Sum(RowLosses(rowLoss, rows));
    if |rows| <= 32 {
      SingleBatchLossSum(rowLoss, rows);
      assert GetLoss(bl) == Ok(Sum(bl) / 1.0);
    } else {
      FullBatchLossSum(rowLoss, rows);
      assert Sum(bl) == s / 32.0;
      assert 32.0 * k == |ds.x| as real;
      DivideTwice(s, k);
      assert GetLoss(bl) == Ok(Sum(bl) / k);
    }
  }

  /** The average is over batches, not rows: 33 rows whose losses are 0
      except the last one's 1 make a full batch of loss 0 and a one-row batch
      of loss 1, so `evaluate` returns 1/2 while the per-row mean is 1/33. */
  lemma EvaluateIsNotRowWeighted(y: seq<int>)
    requires |y| == 33
    ensures Evaluate((a: int, b: int) => if a == 32 then 1.0 else 0.0, Dataset(seq(33, i => i), y)) == Ok(0.5)
  {
    var rowLoss := (a: int, b: int) => if a == 32 then 1.0 else 0.0;
    var ds := Dataset(seq(33, i => i), y);
    var rows := Pairs(ds);
    var bs := Chunk(rows, 32);
    assert bs == [rows[..32]] + Chunk(rows[32..], 32);
    assert Chunk(rows[32..], 32) == [rows[32..]];
    SumConstant(RowLosses(rowLoss, rows[..32]), 0.0);
    assert BatchLoss(rowLoss, rows[..32]) == 0.0;
    assert rows[32..][0] == (32, y[32]);
    SumConstant(RowLosses(rowLoss, rows[32..]), 1.0);
    assert BatchLoss(rowLoss, rows[32..]) == 1.0;
    assert BatchLosses(rowLoss, bs) == [0.0, 1.0];
    assert Sum([0.0, 1.0]) == Sum([0.0]) + 1.0;
    assert Sum([0.0]) == Sum([]) + 0.0;
  }
}
