/** `Forecaster`: its hyperparameters and network, `_run_training` with the
    per-epoch loss it feeds to early stopping, and `fit`.

    What one epoch of gradient descent produces is an input (`EpochLosses`):
    the loss of the last training batch, and the loss of every validation
    batch under the weights reached at the end of the epoch. */
module Forecasting {
  import opened Outcomes
  import opened Batching
  import opened EarlyStopping
  import Patience
  import Inference
  import NetShapes

  /** `self.batch_size`, used by the training and validation loaders. */
  const BatchSize: nat := 64

  /** The constructor arguments of `Forecaster`. */
  datatype Hyperparameters = Hyperparameters(
    encodeLen: nat, decodeLen: int, featDim: nat, latentDim: int, activation: string)

  /** The network `Forecaster.__init__` builds: three convolution layers. */
  function MakeNet(hp: Hyperparameters): (net: NetShapes.Net)
    ensures net.featDim == hp.featDim && net.encodeLen == hp.encodeLen
    ensures net.latentDim == hp.latentDim && net.activation == hp.activation
  {
    NetShapes.Net(hp.featDim, hp.latentDim, 3, hp.encodeLen, hp.activation)
  }

  /** A forecaster sized from its training windows accepts exactly those
      windows and returns one row of `encode_len` values per window; the
      constructor never validates `activation`. */
  lemma ForecasterAcceptsItsTrainingWindows(xShape: NetShapes.Shape, decodeLen: int, latentDim: int, activation: string)
    requires |xShape| == 3 && xShape[1] >= 1
    ensures var p := NetShapes.DataBasedModelParams(xShape).value;
      var hp := Hyperparameters(p.encodeLen, decodeLen, p.featDim, latentDim, activation);
      NetShapes.Forward(MakeNet(hp), xShape) == Ok([xShape[0], xShape[1]])
  {
  }

  /** What one training epoch produces. */
  datatype EpochLosses = EpochLosses(lastBatchLoss: real, validBatchLosses: seq<real>)

  /** Whether the validation losses of every epoch come from a loader with
      `count` batches (the same loader serves every epoch). */
  predicate ValidationBatchesAre(epochs: seq<EpochLosses>, count: nat) {
    forall e :: 0 <= e < |epochs| ==> |epochs[e].validBatchLosses| == count
  }

  /** The `current_loss` of each epoch: the mean validation batch loss when
      early stopping is on and a validation loader exists, the last training
      batch's loss otherwise (with early stopping off, the validation loader
      is never consulted). */
  function CurrentLosses(epochs: seq<EpochLosses>, useValidation: bool): (ls: seq<real>)
    requires useValidation ==> forall e :: 0 <= e < |epochs| ==> |epochs[e].validBatchLosses| > 0
    ensures |ls| == |epochs|
    ensures forall e :: 0 <= e < |epochs| ==>
      (useValidation ==> Inference.GetLoss(epochs[e].validBatchLosses) == Ok(ls[e]))
    ensures forall e :: 0 <= e < |epochs| ==> (!useValidation ==> ls[e] == epochs[e].lastBatchLoss)
  {
    seq(|epochs|, e requires 0 <= e < |epochs| =>
      if useValidation then Inference.GetLoss(epochs[e].validBatchLosses).value
      else epochs[e].lastBatchLoss)
  }

  /** A data loader over `rows` inputs and `targets` targets, as the
      epoch loop sees it. One pass over the loader reads every row index,
      whatever the shuffling, so a target list shorter than the inputs
      raises the IndexError of `CustomDataset.__getitem__` in the first
      epoch. */
  datatype Loader = Loader(rows: nat, targets: nat) {

    /** `len(loader)`: batches of 64 rows, the last one possibly shorter. */
    function Batches(): nat {
      NumBatches(rows, BatchSize)
    }

    /** Every row index the loader reads has a target. */
    predicate HasAllTargets() {
      rows <= targets
    }
  }

  /** `_run_training`. In the first epoch the training loop reads every
      training row (IndexError when a target is missing), then needs a
      training batch to have run before it reads `loss` (UnboundLocalError
      otherwise); with early stopping on, `get_loss` then reads every
      validation row (IndexError again) and divides by the number of
      validation batches (ZeroDivisionError on an empty loader). Past these,
      the history is that of the early-stopping loop over the current
      losses: epochs 0, 1, ... with their losses. */
  function RunTraining(epochs: seq<EpochLosses>, maxEpochs: nat, train: Loader,
                       valid: Option<Loader>, useEarlyStopping: bool, patience: int): (r: Result<seq<Record>>)
    requires maxEpochs <= |epochs|
    requires valid.Some? ==> ValidationBatchesAre(epochs, valid.value.Batches())
    ensures maxEpochs == 0 ==> r == Ok([])
    ensures maxEpochs > 0 && train.rows == 0 ==> r == Err(UnboundLoss)
    ensures maxEpochs > 0 && train.rows > 0 && !train.HasAllTargets() ==> r == Err(IndexOutOfRange)
    ensures maxEpochs > 0 && train.rows > 0 && train.HasAllTargets() && useEarlyStopping && valid.Some? ==>
      && (valid.value.rows == 0 ==> r == Err(DivisionByZero))
      && (valid.value.rows > 0 && !valid.value.HasAllTargets() ==> r == Err(IndexOutOfRange))
    ensures r.Err? ==> r.error in {UnboundLoss, IndexOutOfRange, DivisionByZero, UnboundTriggerTimes}
    ensures r.Ok? ==> |r.value| <= maxEpochs
    ensures r.Ok? && maxEpochs > 0 && useEarlyStopping && valid.Some? ==> valid.value.rows > 0
    ensures r.Ok? && maxEpochs > 0 ==>
      r.value == Records(CurrentLosses(epochs, useEarlyStopping && valid.Some?), |r.value|)
  {
    if maxEpochs == 0 then Ok([])
    else if train.rows == 0 then Err(UnboundLoss)
    else if !train.HasAllTargets() then Err(IndexOutOfRange)
    else
      var useValidation := useEarlyStopping && valid.Some?;
      if useValidation && valid.value.rows == 0 then Err(DivisionByZero)
      else if useValidation && !valid.value.HasAllTargets() then Err(IndexOutOfRange)
      else
        var outcome :- Run(CurrentLosses(epochs, useValidation), maxEpochs, useEarlyStopping, patience);
        Ok(outcome.history)
  }

  /** With early stopping off, `_run_training` on a complete, non-empty
      training loader records every epoch's last training batch loss,
      exactly `maxEpochs` records, and never fails. */
  lemma RunTrainingWithoutEarlyStopping(epochs: seq<EpochLosses>, maxEpochs: nat, train: Loader,
                                        valid: Option<Loader>, patience: int)
    requires maxEpochs <= |epochs| && train.rows > 0 && train.HasAllTargets()
    requires valid.Some? ==> ValidationBatchesAre(epochs, valid.value.Batches())
    ensures RunTraining(epochs, maxEpochs, train, valid, false, patience).Ok?
    ensures var h := RunTraining(epochs, maxEpochs, train, valid, false, patience).value;
      && |h| == maxEpochs
      && forall e :: 0 <= e < maxEpochs ==> h[e] == Record(e, epochs[e].lastBatchLoss)
  {
    if maxEpochs > 0 {
      RunWithoutEarlyStopping(CurrentLosses(epochs, false), maxEpochs, patience, 0, Initial);
    }
  }

  /** What `fit` is given: the training loader and, when both validation
      arrays are passed, the validation loader. */
  datatype FitData = FitData(train: Loader, valid: Option<Loader>) {

    /** A loader over zero rows: `RandomSampler` refuses it. */
    predicate HasEmptySet() {
      train.rows == 0 || (valid.Some? && valid.value.rows == 0)
    }

    /** Some training or validation input has no target. */
    predicate MissesTargets() {
      !train.HasAllTargets() || (valid.Some? && !valid.value.HasAllTargets())
    }
  }

  /** The epoch losses come from the validation loader `fit` builds. */
  predicate FitsValidation(data: FitData, epochs: seq<EpochLosses>) {
    data.valid.Some? && data.valid.value.rows > 0 ==> ValidationBatchesAre(epochs, data.valid.value.Batches())
  }

  /** `fit`: builds shuffling loaders (which refuse zero rows), takes the
      patience from the training-set size and runs the early-stopping loop. */
  function Fit(data: FitData, epochs: seq<EpochLosses>, maxEpochs: nat): (r: Result<seq<Record>>)
    requires maxEpochs <= |epochs| && FitsValidation(data, epochs)
    ensures r == Err(EmptySampler) <==> data.HasEmptySet()
    ensures r.Ok? ==> |r.value| <= maxEpochs
  {
    if data.HasEmptySet() then Err(EmptySampler)
    else
      RunTraining(epochs, maxEpochs, data.train, data.valid, true, Patience.PatienceFactor(data.train.rows))
  }

  /** The losses `fit` feeds to early stopping. */
  function FitLosses(data: FitData, epochs: seq<EpochLosses>): (ls: seq<real>)
    requires FitsValidation(data, epochs)
    ensures |ls| == |epochs|
  {
    var useValidation := data.valid.Some? && data.valid.value.rows > 0;
    if useValidation then
      assert forall e :: 0 <= e < |epochs| ==> |epochs[e].validBatchLosses| > 0;
      CurrentLosses(epochs, true)
    else CurrentLosses(epochs, false)
  }

  /** How `fit` ends: on an empty training or validation set it fails at
      once; otherwise it fails in the first epoch exactly when some input
      has no target (IndexError) or the first loss is not below 1e7 (the
      unbound `trigger_times`), and else returns the early-stopping history
      over the epoch losses with the size-derived patience. */
  lemma FitOutcome(data: FitData, epochs: seq<EpochLosses>, maxEpochs: nat)
    requires maxEpochs <= |epochs| && FitsValidation(data, epochs)
    ensures data.HasEmptySet() ==> Fit(data, epochs, maxEpochs) == Err(EmptySampler)
    ensures !data.HasEmptySet() ==>
      var ls := FitLosses(data, epochs);
      && (Fit(data, epochs, maxEpochs).Err? <==> maxEpochs > 0 && (data.MissesTargets() || ls[0] >= Sentinel))
      && (maxEpochs > 0 && data.MissesTargets() ==> Fit(data, epochs, maxEpochs) == Err(IndexOutOfRange))
      && (Fit(data, epochs, maxEpochs).Ok? ==>
            exists o :: Characterised(ls, maxEpochs, Patience.PatienceFactor(data.train.rows), o)
                     && Fit(data, epochs, maxEpochs).value == o.history)
  {
    if !data.HasEmptySet() {
      var ls := FitLosses(data, epochs);
      var p := Patience.PatienceFactor(data.train.rows);
      RunCharacterised(ls, maxEpochs, p);
      if maxEpochs > 0 {
        FitRunsEarlyStopping(data, epochs, maxEpochs);
      }
    }
  }

  /** Past the empty-loader checks, `fit` is either the IndexError of a
      missing target or the early-stopping run over its losses with the
      size-derived patience. */
  lemma FitRunsEarlyStopping(data: FitData, epochs: seq<EpochLosses>, maxEpochs: nat)
    requires 0 < maxEpochs <= |epochs| && FitsValidation(data, epochs)
    requires !data.HasEmptySet()
    ensures var r := Run(FitLosses(data, epochs), maxEpochs, true, Patience.PatienceFactor(data.train.rows));
      Fit(data, epochs, maxEpochs)
      == if data.MissesTargets() then Err(IndexOutOfRange)
         else if r.Ok? then Ok(r.value.history) else Err(r.error)
  {
  }

  /** On a training set under 100 rows the patience is 30: after a last
      improvement at epoch k, `fit` stops at epoch k + 30 (or after all
      `maxEpochs` epochs), returning min(k + 31, maxEpochs) records. */
  lemma FitOnSmallDataStopsThirtyEpochsAfterLastImprovement(
      data: FitData, epochs: seq<EpochLosses>, maxEpochs: nat, k: nat)
    requires maxEpochs <= |epochs| && FitsValidation(data, epochs)
    requires data.train.rows < Patience.SmallDataLimit
    requires Fit(data, epochs, maxEpochs).Ok? && |Fit(data, epochs, maxEpochs).value| > k
    requires Improves(FitLosses(data, epochs), k)
    requires forall e :: k < e < maxEpochs ==> FitLosses(data, epochs)[e] >= FitLosses(data, epochs)[k]
    ensures |Fit(data, epochs, maxEpochs).value| == if k + 31 <= maxEpochs then k + 31 else maxEpochs
  {
    FitRunsEarlyStopping(data, epochs, maxEpochs);
    ExactStopEpoch(FitLosses(data, epochs), maxEpochs, 30, k);
  }
}
