# CNN forecaster: training control, batching and shapes

A Dafny model of the deterministic control logic around the convolutional
forecaster in `app/algorithm/model/forecaster.py`. The model covers:

- the size-adaptive early-stopping patience (`get_patience_factor`);
- the epoch loop of `Forecaster._run_training` with its
  `(best_loss, trigger_times)` state machine;
- `fit`, which derives the patience and builds the loaders;
- `CustomDataset` and the non-shuffling `DataLoader` batching;
- `predict` (per-row forward pass, the `[-decode_len:]` slice,
  concatenation of batch results);
- `get_loss` and `evaluate` (the average of per-batch losses);
- the shape-level behaviour of `Net` (`forward`, the layer sizes,
  `get_num_parameters`, `get_activation`);
- `get_data_based_model_params`.

Tensor arithmetic is abstracted away:

- what one training epoch yields (last training-batch loss and the
  validation batch losses) is an input sequence;
- the network is an arbitrary row function `f` in `predict`;
- the per-row loss is an arbitrary function in `evaluate`;
- in `Net`, only tensor shapes are tracked.

Failures the Python code raises are `Err` values of one `Error` type
(`outcomes.dfy`), and the contracts state when each one occurs. The
errors of the tensor arithmetic stay outside: a network that rejects its
input windows raises a RuntimeError, and so does `MSELoss` on targets that
cannot be broadcast to the prediction's shape (broadcastable ones are
silently broadcast, since the module silences warnings). The model assumes
the network accepts every window and every target has the prediction's
shape, in training, in `predict` and in `evaluate` (see "Left out"); the
shapes the network accepts are stated separately in `NetShapes.Forward`.

Modules, one per file:

| module | file | models |
|---|---|---|
| `Outcomes` | outcomes.dfy | `Option`, `Result` and the error kinds |
| `Patience` | patience.dfy | `get_patience_factor` |
| `Slicing` | slicing.dfy | Python's `a[start:]` |
| `Batching` | batching.dfy | `CustomDataset` and loader batching |
| `Inference` | inference.dfy | `get_loss`, `predict`, `evaluate` |
| `EarlyStopping` | early_stopping.dfy | the epoch loop of `_run_training` |
| `NetShapes` | net_shapes.dfy | `Net` at the level of shapes |
| `Forecasting` | forecasting.dfy | `Forecaster`: hyperparameters, `_run_training`, `fit` |

Main modelling decisions:

- **The patience logarithm is exact.** The real logarithm replaces the
  floating-point `math.log`. Let `m` be the largest exponent with
  `3^m <= n * 2^m`. Then `int(37 - log_1.5 n)` is `36 - m` for `m <= 36`
  and `37 - m` beyond. For every `n >= 2`, `log_1.5 n` is never a whole
  number, because `3^k` is odd and `n * 2^k` is even.
- **The code truncates; it does not take the floor.** Python's `int()`
  truncates toward zero. For training sets above about 1.5^37 rows, the
  patience therefore differs from `floor(37 - log_1.5 N)`. The model follows
  the truncation.
- **`trigger_times` is an `Option`.** `None` stands for the local that
  Python has not yet bound. If the first epoch's loss is not below the
  `1e7` sentinel, line 158 increments an unbound local, and the run fails
  with `UnboundTriggerTimes`. This is a defect in the source. The model
  keeps it as an error path and proves exactly when it occurs
  (`EarlyStopping.RunCharacterised`). A loop that binds `trigger_times = 0`
  up front never fails and agrees with the source wherever the source
  succeeds (`EarlyStopping.RunCorrectedNeverFails`; see "Findings").
- **The history includes the stopping epoch.** An improvement at epoch `k`
  with no later improvement gives `min(max(k + patience, 10) + 1, maxEpochs)`
  records (`EarlyStopping.ExactStopEpoch`).
- **Every loader needs a target for every row.** A loader reads every row
  index in each pass, whatever the shuffling, so in `fit` a target list
  shorter than its inputs raises the IndexError in the first epoch, in the
  training loop or in `get_loss`. The loaders of `fit` are therefore
  described by their row and target counts (`Forecasting.Loader`).
- **`predict` needs a target for every row.** The forecasts never use `y`,
  but `CustomDataset.__getitem__` indexes it. A `y` shorter than `X`
  therefore raises an IndexError. The model keeps that error, and
  `Inference.PredictIgnoresTargets` states that target values never reach
  the forecasts.
- **`forward` needs `encode_len >= 1`.** With `encode_len = 0` the slice
  `x[:, -0:, :]` keeps every step, so the flattened width `25 * T` never
  equals the `fc` input width 0 for `T >= 1`. For `T = 0` the convolutions
  fail instead.

## Model

| member | source | states |
|---|---|---|
| Patience.PatienceFactor | app/algorithm/model/forecaster.py:49-53 | below 100 rows the patience is 30; from 100 rows on it is the truncation toward zero of 37 - log_1.5 N, stated as bounds between powers of 1.5 |
| Patience.PatienceFactorCharacterised | app/algorithm/model/forecaster.py:52 | from 100 rows on, an integer satisfies the truncated-logarithm bounds exactly when it is the patience, so those bounds determine `get_patience_factor` |
| Patience.PatienceFrom100To129 | app/algorithm/model/forecaster.py:49-53 | the patience is 25 for every N from 100 to 129, since 1.5^11 <= N < 1.5^12 there |
| Patience.PatienceFrom986To1477 | app/algorithm/model/forecaster.py:49-53 | the patience is 19 for every N from 986 to 1477 (1000 included), exactly the N with 1.5^17 <= N < 1.5^18 |
| Patience.PatienceNonIncreasing | app/algorithm/model/forecaster.py:49-53 | a larger training set never gets a larger patience, including across the 100-row threshold |
| Slicing.SliceFrom | app/algorithm/model/forecaster.py:186 | a Python `a[start:]` slice is always a suffix of `a` |
| Slicing.NegatedStartSlice | app/algorithm/model/forecaster.py:317 | `a[-d:]` keeps the last d entries for 0 < d <= len; it keeps everything for d = 0 (since -0 is 0) and for d beyond the length |
| Batching.Pairs | app/algorithm/model/forecaster.py:56-64 | the dataset has as many items as inputs, and item i is the pair (x[i], y[i]) |
| Batching.NumBatchesIsCeiling | app/algorithm/model/forecaster.py:46 | the loader's batch count, the `len(data_loader)` divisor, is the ceiling of rows / batch size |
| Batching.Chunk | app/algorithm/model/forecaster.py:181 | non-shuffled batches concatenate back to the rows in order; the batch count is the ceiling; every batch is non-empty and full except possibly the last |
| Batching.Batches | app/algorithm/model/forecaster.py:180-181 | loading a dataset succeeds exactly when every input has a target; the batches then concatenate to the dataset's pairs, number the ceiling of rows / batch size, and are all full except possibly the shorter last one |
| Inference.GetLoss | app/algorithm/model/forecaster.py:37-46 | the result times the number of batches is the sum of the batch losses; an empty loader is a division by zero and the only failure |
| Inference.GetLossWithinBatchRange | app/algorithm/model/forecaster.py:37-46 | the averaged loss lies between the smallest and largest batch loss |
| Inference.ConcatenatedBatchForecasts | app/algorithm/model/forecaster.py:182-189 | concatenating per-batch forecasts equals forecasting the concatenated rows |
| Inference.Predict | app/algorithm/model/forecaster.py:173-190 | succeeds exactly when there is at least one row and every row has a target; then returns one forecast per row, in row order, row i being `f(X[i])[-decode_len:]`; otherwise an IndexError or an empty-concatenation error |
| Inference.PredictIndependentOfBatchSize | app/algorithm/model/forecaster.py:181-189 | the batch size never changes the result of `predict` |
| Inference.PredictIgnoresTargets | app/algorithm/model/forecaster.py:179-186 | two datasets with the same inputs and enough targets give the same forecasts |
| Inference.PredictShape | app/algorithm/model/forecaster.py:186 | for 0 < decode_len <= row width, each forecast is exactly the last decode_len network outputs; decode_len = 0 returns the whole network row |
| Inference.Evaluate | app/algorithm/model/forecaster.py:197-205 | succeeds exactly when there is at least one row and every row has a target, and then lies between the smallest and the largest per-row loss; otherwise an IndexError or a division by zero |
| Inference.EvaluateAveragesLoaderBatches | app/algorithm/model/forecaster.py:197-205 | `evaluate` is `get_loss` over the row-order batches of 32, whose count (the divisor) is the ceiling of the row count over 32 |
| Inference.BatchLossesWithin | app/algorithm/model/forecaster.py:37-46 | when every row loss lies in [lo, hi], so does every batch loss |
| Inference.EvaluateOfEqualBatchesIsRowMean | app/algorithm/model/forecaster.py:201-204 | when all batches have the same size (at most 32 rows, or a multiple of 32), `evaluate` equals the per-row mean loss |
| Inference.EvaluateIsNotRowWeighted | app/algorithm/model/forecaster.py:203-204 | with a short last batch the average is over batches, not rows: 33 rows with one unit loss evaluate to 1/2, not 1/33 |
| EarlyStopping.Update | app/algorithm/model/forecaster.py:154-158 | a strictly smaller loss becomes the best loss and resets the count to 0; a tie or larger loss increments the count; that increment fails while the count is unbound |
| EarlyStopping.Step | app/algorithm/model/forecaster.py:154-161 | the loop stops exactly on a non-improving epoch whose incremented count reaches the patience at epoch 10 or later; an improving epoch never stops it |
| EarlyStopping.RunFrom | app/algorithm/model/forecaster.py:131-164 | the history holds the records of epochs 0 .. n-1 with their losses, n <= maxEpochs; a run that does not stop early records all maxEpochs epochs |
| EarlyStopping.Run | app/algorithm/model/forecaster.py:125-170 | the same history shape for the whole loop; its only failure is the unbound `trigger_times` |
| EarlyStopping.RunningMin | app/algorithm/model/forecaster.py:128-156 | the best loss is at most 1e7 and every loss seen, and is either 1e7 or one of those losses |
| EarlyStopping.LastImprovement | app/algorithm/model/forecaster.py:154-156 | the last epoch up to e that reset the count is an improving epoch, and no later epoch up to e improves |
| EarlyStopping.StepTracksSpecState | app/algorithm/model/forecaster.py:128-161 | every epoch keeps `best_loss` equal to min(1e7, losses so far) and `trigger_times` equal to the epochs since the last improvement; the step stops exactly when the loss-only stop condition holds |
| EarlyStopping.RunFromReferenceStep | app/algorithm/model/forecaster.py:131-161 | one epoch in the reference state either stops with the records so far or continues in the next reference state |
| EarlyStopping.RunFromFails | app/algorithm/model/forecaster.py:131-158 | the loop entered in the reference state fails exactly when it starts at epoch 0 with a first loss not below 1e7 |
| EarlyStopping.RunFromCharacterised | app/algorithm/model/forecaster.py:131-161 | the loop entered in the reference state, when it succeeds, ends as the loss-only description says |
| EarlyStopping.RunCharacterised | app/algorithm/model/forecaster.py:125-170 | the run fails exactly when the first loss is not below 1e7; otherwise it stops at the first epoch meeting the stop condition or after maxEpochs epochs; an early stop leaves at least 11 records, and the last epoch did not improve |
| EarlyStopping.RunWithoutEarlyStopping | app/algorithm/model/forecaster.py:163-164 | without early stopping, exactly maxEpochs records with their losses, whatever the losses |
| EarlyStopping.BoundRunNeverFails | app/algorithm/model/forecaster.py:154-158 | once `trigger_times` is bound, no later epoch of the loop can fail |
| EarlyStopping.RunCorrectedNeverFails | app/algorithm/model/forecaster.py:128-164 | with `trigger_times = 0` set before the loop, the run never fails, and it returns the same outcome as the source wherever the source succeeds |
| EarlyStopping.PlateauAfter | app/algorithm/model/forecaster.py:154-158 | after an improving epoch k that no later loss undercuts, the best loss stays losses[k] and k stays the last improvement |
| EarlyStopping.ExactStopEpoch | app/algorithm/model/forecaster.py:130-161 | with patience >= 1 and a last improvement at epoch k, the history has min(max(k + patience, 10) + 1, maxEpochs) records |
| NetShapes.Permute021RoundTrip | app/algorithm/model/forecaster.py:308-316 | the second `permute(0, 2, 1)` undoes the first: permuting a rank-3 shape twice gives it back |
| NetShapes.ConvSame | app/algorithm/model/forecaster.py:295-297 | from the stride-1 output-length formula with `same` padding of kernel - 1, the convolution keeps batch and length and outputs its out-channels; it accepts exactly its input channels and lengths >= 1 (the padded length must reach the kernel) |
| NetShapes.KeepLastSteps | app/algorithm/model/forecaster.py:317 | `x[:, -k:, :]` keeps min(T, k) steps for k >= 1 and all T steps for k = 0 |
| NetShapes.FlattenKeepsEntries | app/algorithm/model/forecaster.py:319 | flattening keeps every entry: (batch, L * C) holds as many entries as (batch, L, C) |
| NetShapes.Forward | app/algorithm/model/forecaster.py:307-328 | the forward pass succeeds exactly on (batch, T, feat_dim) with T >= encode_len >= 1, and then returns (batch, encode_len) |
| NetShapes.ForwardIgnoresActivation | app/algorithm/model/forecaster.py:307-328 | the `activation` argument never affects the forward pass |
| NetShapes.ActivationNeverValidated | app/algorithm/model/forecaster.py:340-346 | `get_activation` rejects every name but "relu" and "tanh", yet a network carrying such a name runs its forward pass exactly as a "relu" network does: the validator is never consulted |
| NetShapes.ParamCountClosedForm | app/algorithm/model/forecaster.py:290-300 | the layer parameter tensors hold 400 * feat_dim + 25 * encode_len^2 + encode_len + 60175 entries |
| NetShapes.NumParameters | app/algorithm/model/forecaster.py:331-338 | the two nested loops compute the parameter count in closed form |
| NetShapes.DataSizedNetAcceptsItsData | app/algorithm/model/forecaster.py:268-276 | a net sized from X accepts windows shaped like X's, exactly when they have at least one time step, and returns (batch, encode_len) |
| Forecasting.ForecasterAcceptsItsTrainingWindows | app/algorithm/model/forecaster.py:71-91 | a forecaster built from its data-based parameters maps its training windows to one row of encode_len values each, whatever the activation name |
| Forecasting.RunTraining | app/algorithm/model/forecaster.py:125-170 | zero epochs give an empty history; an empty training loader is an unbound `loss`; a missing training target is an IndexError; with early stopping, an empty validation loader is a division by zero and a missing validation target an IndexError; the only other error is the unbound `trigger_times`; a successful history holds epochs 0, 1, ... with their current losses |
| Forecasting.RunTrainingWithoutEarlyStopping | app/algorithm/model/forecaster.py:147-164 | without early stopping and with a complete training set, every epoch's last training batch loss is recorded, exactly maxEpochs records |
| Forecasting.Fit | app/algorithm/model/forecaster.py:100-122 | `fit` raises the empty-sampler error exactly for an empty training or validation set |
| Forecasting.FitOutcome | app/algorithm/model/forecaster.py:100-122 | past the empty-set checks, `fit` fails exactly when some input lacks a target (an IndexError) or the first epoch's loss is not below 1e7, and otherwise returns the loss-only early-stopping history with the size-derived patience |
| Forecasting.FitRunsEarlyStopping | app/algorithm/model/forecaster.py:100-122 | past the empty-set checks, `fit` is the IndexError of a missing target or the early-stopping run with the patience of its training-set size |
| Forecasting.FitOnSmallDataStopsThirtyEpochsAfterLastImprovement | app/algorithm/model/forecaster.py:49-161 | under 100 training rows, a last improvement at epoch k ends `fit` with min(k + 31, maxEpochs) records |

## Findings

| source | as written | input that shows it | evidently intended | confidence | as-written member | corrected member |
|---|---|---|---|---|---|---|
| app/algorithm/model/forecaster.py:128-158 | `trigger_times` is first bound when a loss improves on 1e7, so a first epoch that does not improve increments an unbound local | early stopping on, first epoch loss 1e7 or more (or NaN) | `trigger_times = 0` next to `best_loss = 1e7`, so the first non-improving epoch counts as one | medium; not executed | EarlyStopping.RunCharacterised | EarlyStopping.RunCorrectedNeverFails |

The rest of the model keeps the source's behaviour: `Forecasting.Fit` runs
the loop as written, and `EarlyStopping.RunCorrectedNeverFails` shows that
the correction changes only the failing runs.

## Left out

- Tensor numerics are left out: the convolution, linear and ReLU arithmetic, MSE, backpropagation and the Adam updates. They are inputs: the per-epoch losses, the row function of `predict` and the per-row loss of `evaluate`.
- Patience.PatienceFactor: uses the exact real logarithm. Rounding of the floating-point `math.log` near whole values is not modelled.
- Losses are exact reals, so NaN losses and floating-point rounding in sums and means are not modelled. A NaN first loss is the likeliest way to reach the unbound `trigger_times` (NaN < 1e7 is false); the model reaches it only through a first loss of 1e7 or more.
- Inference.Predict: assumes the network accepts every input window. The RuntimeError `self.net(X)` raises on windows of the wrong rank, feature count or fewer than `encode_len` steps is not modelled, so "succeeds exactly when" covers only the IndexError and the empty concatenation.
- Inference.Evaluate: assumes the network accepts every input window and every target has the prediction's shape. The RuntimeError of the forward pass and the RuntimeError of `MSELoss` on targets that cannot be broadcast are not modelled, so "succeeds exactly when" covers only the IndexError and the division by zero. Targets that broadcast (one target column against `encode_len` outputs, say) give a loss without any error, comparing every output with the broadcast target; the per-row loss parameter can stand for that loss, but no contract describes the broadcast.
- Forecasting.RunTraining: assumes the network accepts every training and validation window. The RuntimeError the forward pass raises on other shapes is not part of the run; `NetShapes.Forward` states which shapes it accepts.
- Forecasting.FitOutcome: with both a missing target and a rejected window, which error comes first depends on the shuffled order; the model reports the IndexError and does not model the RuntimeError.
- Shuffling of the training and validation loaders is left out because it is library randomness. Only the number of batches matters to the model: the per-epoch losses are an input.
- Inference.BatchLoss: `MSELoss` averages over all entries of a batch. The model takes it as the mean of the row losses, which is the same for rows of equal width. Ragged rows are not modelled.
- Inference.Predict: the ragged `np.concatenate` (forecasts of different widths) is not modelled. Every forecast is a separate row.
- Device selection and `.to(device)` are left out as runtime plumbing.
- Persistence is left out because it is file I/O. This covers `save`, `load`, `save_model_artifacts`, `save_model`, `save_model_pred_pipeline`, `save_training_history`, `save_training_data`, and the exception wrapping in `load_model`.
- Verbose progress printing is left out because it is output only.
- `summary()` is left out: it refers to an attribute that does not exist.
- The unused constants `MIN_HISTORY_LEN`, `COST_THRESHOLD` and the artifact file names are left out.
- The `__main__` demo is left out.
- Forecasting.Fit: `max_epochs` is always an explicit argument; the default of 100 in `fit`'s signature is not modelled.
- Forecasting.RunTraining: `max_epochs` is a natural number, so negative values (an empty `range`, hence an empty history) are not modelled.
- Forecasting.RunTraining: the model returns the history; `EarlyStopping.Run` also reports whether the loop stopped early. The Python code returns only the history.
- Inference.Evaluate: the `self.net is not None` guard always holds, because `__init__` always builds a network. The implicit `None` return is therefore not modelled.
- NetShapes.Forward: `latent_dim` and `n_cnnlayers` are stored but unused by the layers. `Dropout` is constructed but never applied.
- NetShapes.ConvSame: a zero kernel size is a shape error in the model; the layers of `Net` all have kernels of 4, 8 or 16.
- NetShapes.ConvSame: PyTorch's own rejection of a `same`-padded convolution with a zero-length input is modelled only as a shape error.
