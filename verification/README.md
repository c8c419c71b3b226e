# Epoch bookkeeping of the UCI Adult PyTorch classifier script

The script trains two binary classifiers on the UCI Adult table. Each epoch has a
training pass and then a validation pass. After each validation pass, early stopping
looks at the summed validation loss. A final pass scores the test set and collects
every prediction for a confusion matrix. The network, the loss function and the
optimizer are floating-point tensor code. This model replaces them with an oracle. For
each batch, the oracle reports its loss, its number of correct predictions and its size.
For test batches, it reports the 0/1 predictions and labels themselves. Around those
numbers, the model states and proves the script's plain logic:

- `accuracy_fn`: the share of agreeing positions, in percent, with a division by zero
  on an empty vector.
- The epoch loop: the accumulators (including the `accuracy_fn` call on every training
  batch, which can divide by zero), the order of normalising and appending, the
  early-stopping update on `best_val_loss` and `counter`, and the `break` that skips
  the validation entries of the stopping epoch. Both copies of the loop (one per
  architecture) are modelled once, with `epochs` and `patience` as parameters.
- The test pass: the accumulators, plus the two trackers that collect predictions and
  labels in loader order.

Python's exceptions appear as `Result` errors: `ZeroDivision` for an empty loader, a
training batch without examples (inside `accuracy_fn`) or a pass without examples, and
`UnboundCounter` for the `NameError` that `counter += 1` would raise before `counter` was
ever assigned. Losses are `real`, and `float('inf')` is the `Infinity` case of `Best`.
Every batch's loss is a real number supplied with the batch, including for a batch
without examples; the script's NaN loss for such a batch is listed under "## Left out".

Files:
- `basics.dfy`: the error, result, option and label types.
- `metrics.dfy`: `accuracy_fn`, percentages and per-batch means.
- `batches.dfy`: batch records, the accumulation loop, and the training pass's variant
  of it that calls `accuracy_fn` on each batch.
- `early_stopping.dfy`: the update of `best_val_loss` and `counter`, and its reference
  description. That description says the best is the lowest summed loss and the counter
  is the number of epochs since the first epoch that reached it.
- `training_loop.dfy`: the epoch body and the loop as functions, the `Session` class
  holding the script's module-level names, and the lemmas about runs.
- `test_pass.dfy`: the test pass and its trackers.

Three facts about the script shape the model:
- The script keeps four separate lists, not one record per epoch. An early stop at epoch
  `k` therefore leaves `k + 1` training entries and `k` validation entries.
- The script never checks `patience` against a valid range. Any integer is accepted; with
  `patience <= 0` the loop stops at epoch 0.
- The script never checks for non-finite losses, and neither does the model.

## Model

| member | source | states |
|---|---|---|
| `Metrics.CountEqual` | UCI_Adult_PyTorch.py:74 | The number of agreeing positions never exceeds the vector length. |
| `Metrics.CountEqualAll` | UCI_Adult_PyTorch.py:74 | Every position agrees if and only if the two vectors are equal. |
| `Metrics.CountEqualNone` | UCI_Adult_PyTorch.py:74 | No position agrees if and only if the vectors differ at every index. |
| `Metrics.CountEqualConcat` | UCI_Adult_PyTorch.py:748-763 | Counting agreement over concatenated batches gives the sum of the per-batch counts. |
| `Metrics.Percent` | UCI_Adult_PyTorch.py:396 | `100 * correct / total` fails with ZeroDivision exactly when `total` is 0. Otherwise, the result times `total` is `100 * correct`. It lies in [0, 100] when `correct <= total`, and it is 100 exactly when every example is correct. |
| `Metrics.Mean` | UCI_Adult_PyTorch.py:387 | Dividing a summed loss by the number of batches fails exactly when there are none. Otherwise, the mean times the count gives back the sum. |
| `Metrics.Accuracy` | UCI_Adult_PyTorch.py:63-80 | `accuracy_fn` raises ZeroDivision exactly on an empty prediction vector. Otherwise, it lies in [0, 100], and the result times the length is 100 times the number of agreeing positions. |
| `Metrics.AccuracyPerfect` | UCI_Adult_PyTorch.py:74-80 | On non-empty vectors, the accuracy is 100 if and only if the prediction equals the truth. |
| `Metrics.AccuracyZero` | UCI_Adult_PyTorch.py:74-80 | On non-empty vectors, the accuracy is 0 if and only if the prediction is wrong at every position. |
| `Batches.Sum` | UCI_Adult_PyTorch.py:377-384 | A pass never accumulates more correct predictions than examples. |
| `Batches.TrainSum` | UCI_Adult_PyTorch.py:355-384 | The training pass raises ZeroDivision, from `accuracy_fn` on a batch, exactly when some batch has no examples. Otherwise, its totals are those of `Sum`, and a non-empty loader gives a positive example count. |
| `Batches.AccumulateTraining` | UCI_Adult_PyTorch.py:355-384 | The training pass's batch loop, with the `accuracy_fn` call before each accumulation, ends with exactly the result of `TrainSum`: the first batch without examples raises, and otherwise the totals are the in-order fold. |
| `Batches.Accumulate` | UCI_Adult_PyTorch.py:419-431 | The validation pass's accumulation loop leaves summed loss, correct count and example count equal to the fold over all batches in order, with `correct <= total`. |
| `EarlyStopping.Observe` | UCI_Adult_PyTorch.py:434-441 | A strictly lower summed validation loss becomes `best_val_loss` and resets `counter` to 0. Any other sum leaves `best_val_loss` unchanged and increments `counter` by exactly 1. The result is NameError exactly when that increment meets an unassigned counter. `best_val_loss` never increases and ends at most the current sum. The counter is 0 if and only if the sum improved. |
| `EarlyStopping.FirstMinIndex` | UCI_Adult_PyTorch.py:434-436 | The epoch it returns holds the lowest summed validation loss, and every earlier epoch holds a strictly higher one. |
| `EarlyStopping.ObserveTracksFirstMin` | UCI_Adult_PyTorch.py:336-441 | Starting from `best_val_loss = inf`, each update moves the state to the next reference state, and it never raises NameError. The reference state after a sequence of sums has `best_val_loss` equal to the lowest sum, and `counter` equal to the number of epochs since the first epoch that reached it. |
| `EarlyStopping.TrackedBestNonIncreasing` | UCI_Adult_PyTorch.py:434-436 | `best_val_loss` after more epochs is never above `best_val_loss` after fewer. |
| `TrainingLoop.EpochStep` | UCI_Adult_PyTorch.py:341-464 | An epoch that runs to the end appends one entry to each of the four lists, and its counter is below `patience`. An epoch that breaks appends both training entries but no validation entry, and its counter is at least `patience`. |
| `TrainingLoop.EpochStepFaithful` | UCI_Adult_PyTorch.py:386-464 | Each entry one epoch appends is that epoch's normalised metric. A full epoch adds one entry to each list. A break adds both training entries and no validation entry. An exception leaves each list with at most one new entry. |
| `TrainingLoop.EpochStepStopper` | UCI_Adult_PyTorch.py:425-446 | From the reference early-stopping state, an epoch that does not raise moves to the reference state one epoch later. It breaks only when that counter reached `patience`, and runs to the end only when it did not. An exception is always a ZeroDivision on an epoch that cannot be normalised, never the unassigned counter. |
| `TrainingLoop.EpochStepKeeps` | UCI_Adult_PyTorch.py:386-464 | Every appended entry is its epoch's normalised metric. A full epoch keeps the loop invariant, including the reference early-stopping state. A break happens exactly on reaching `patience`, with lengths `k + 1` and `k`. An exception is always a ZeroDivision on an epoch with an empty loader, a training batch without examples, or a validation pass without examples. |
| `TrainingLoop.RunFrom` | UCI_Adult_PyTorch.py:341-470 | The rest of the `for epoch in range(epochs)` loop, with its `break` and exceptions: an early stop or an exception happens at an epoch between the current one and the last. A run that completes adds exactly one entry to each list per remaining epoch. |
| `TrainingLoop.Run` | UCI_Adult_PyTorch.py:336-470 | The whole loop from empty lists and `best_val_loss = inf`: a completed run has `epochs` entries in every list, and an early stop or an exception happens at one of the `epochs` epochs. |
| `TrainingLoop.RunFromResult` | UCI_Adult_PyTorch.py:341-470 | From any epoch satisfying the invariant, the loop ends in one of three ways. A completed run records every epoch, and no counter reached `patience`. An early stop happens at the first epoch whose counter reached `patience`, with one validation entry fewer. A crash is a ZeroDivision on an epoch that cannot be normalised. |
| `TrainingLoop.FaithfulAccuraciesInRange` | UCI_Adult_PyTorch.py:396-399 | Every recorded training or validation accuracy lies in [0, 100]. |
| `TrainingLoop.RunShape` | UCI_Adult_PyTorch.py:341-470 | For any input, every list entry is its epoch's normalised metric, and every accuracy is in [0, 100]. A completed run has `epochs` entries in every list. An early stop at epoch `k < epochs` leaves `k + 1` training entries and `k` validation entries. A crash is a ZeroDivision, never the unassigned counter. |
| `TrainingLoop.StopsWhenPatienceRunsOut` | UCI_Adult_PyTorch.py:434-446 | Assume no epoch divides by zero. The loop then stops at epoch `k` if and only if `k` is the first epoch whose counter reaches `patience`. It completes if and only if no counter does. `best_val_loss` and `counter` end at the reference state. |
| `TrainingLoop.NoImprovementStopsAtPatience` | UCI_Adult_PyTorch.py:336-446 | Suppose no later epoch strictly improves on epoch 0's summed validation loss. The loop then stops at epoch `patience`, with `patience + 1` training entries and `patience` validation entries. `best_val_loss` stays at epoch 0's sum. |
| `TrainingLoop.ScriptConfigurationStopsAtEpochTen` | UCI_Adult_PyTorch.py:327-446 | With `epochs = 20` and `patience = 10`, no improvement after epoch 0 stops the loop at epoch 10. That leaves 11 training entries and 10 validation entries. |
| `TrainingLoop.PriorCounterIrrelevant` | UCI_Adult_PyTorch.py:538-643 | The second copy of the loop inherits `counter` from the first copy. That value changes neither the outcome nor any recorded list. |
| `TrainingLoop.SumsCompareLikeMeans` | UCI_Adult_PyTorch.py:425-452 | For two epochs with the same number of validation batches, comparing summed losses orders them the same way as comparing the recorded means. |
| `TrainingLoop.Session.constructor` | UCI_Adult_PyTorch.py:329-338 | Before the first loop, the lists are empty, `best_val_loss` is infinity and `counter` is unassigned. |
| `TrainingLoop.Session.TrainAndValidate` | UCI_Adult_PyTorch.py:327-470 | The loop resets the lists and `best_val_loss` but keeps `counter`. Its final state and outcome are those of the loop function `Run`, entered with the old counter. |
| `TrainingLoop.Session.RunEpoch` | UCI_Adult_PyTorch.py:344-464 | One pass through the loop body leaves the state and the ending that `EpochStep` gives. |
| `TestPass.Truths` | UCI_Adult_PyTorch.py:757-763 | `y_true_tracker`, extended by each batch's labels in loader order, has one entry per example counted in `test_total`. |
| `TestPass.Predictions` | UCI_Adult_PyTorch.py:754-760 | `y_pred_tracker`, extended by each batch's predictions in loader order, has exactly as many entries as `y_true_tracker`. |
| `TestPass.TrackersMatchTotals` | UCI_Adult_PyTorch.py:745-763 | The prediction and label trackers are aligned, and each has one entry per test example. They agree in exactly as many positions as the accumulated correct count. |
| `TestPass.Evaluate` | UCI_Adult_PyTorch.py:722-769 | The test pass raises ZeroDivision exactly when the loader is empty or holds no example. Otherwise, the trackers are the in-order concatenations of the batches' predictions and labels, with length `test_total`. The test loss times the batch count is the summed loss. The test accuracy is `accuracy_fn` applied to the two trackers. |

## Left out

- Network architectures, `BCEWithLogitsLoss`, SGD with Nesterov momentum, `backward`/`step`, and `sigmoid`/`round`. These are floating-point tensor numerics. Per-batch losses and correct counts are oracle inputs, and predictions are 0/1 values.
- A batch without examples: `BCEWithLogitsLoss` takes its mean over zero elements, so the script's loss for it is NaN (:363, :425, :745). `nan < best_val_loss` at :434 is false, so a validation pass containing such a batch always takes `counter += 1`, which raises NameError at epoch 0 of the first loop and otherwise counts as no improvement. The model gives such a batch a real loss like any other. The lines below name the contracts this affects.
- `TrainingLoop.EpochStepStopper`: its claim that an exception is always a ZeroDivision, and that the stopper moves to the first-minimum state, holds for the model's real-valued losses; with an empty validation batch the script can raise NameError instead, or count no improvement.
- `TrainingLoop.EpochStepKeeps`: the same restriction; its exception-kind and stopper clauses assume every validation batch's loss is a real number.
- `TrainingLoop.RunFromResult`: the same restriction; "a crash is a ZeroDivision" and the early-stop epoch hold only when no validation batch is empty.
- `TrainingLoop.RunShape`: the same restriction; "never the unassigned counter" holds only when no validation batch is empty.
- `TrainingLoop.StopsWhenPatienceRunsOut`: its requires admits an empty validation batch beside non-empty ones; for such data the script's comparison sees NaN, so the stop epoch it states holds only for the model's real-valued losses.
- `TrainingLoop.NoImprovementStopsAtPatience`: the same restriction as `StopsWhenPatienceRunsOut`.
- `TestPass.Evaluate`: a test batch without examples makes the script's `test_loss` NaN; the model's mean is of real losses.
- Floating-point behaviour of the accumulators: losses are exact reals, so rounding, overflow and NaN are not modelled. The numeric-instability failure is left out with them.
- CSV loading, recoding, one-hot encoding and standardisation: dataframe I/O.
- Undersampling and the train/validation/test split: foreign library calls with randomness.
- `DataLoader` batching and shuffling: foreign. Each epoch's batches arrive as given sequences.
- With a batch of one example, `.squeeze()` turns the logits into a 0-d tensor while `y` stays 1-d, so `loss_fn` (at :363, :425 and :745) fails on the size mismatch. This can happen in the training, validation and test passes alike. The model's per-batch losses are oracle inputs and do not capture this.
- `Metrics.Accuracy`: requires both vectors to have the same length. Tensor broadcasting of mismatched shapes is not modelled.
- The value `accuracy_fn` returns inside the training loop is never used by the script. The model keeps only the call's division by zero; the loop's own count is what it accumulates.
- The `sklearn` confusion matrix is a foreign call. Only the two trackers that feed it are modelled.
- TensorBoard writer calls, log-directory removal and creation, `os.chdir` and every `print`: I/O.
- All seaborn and matplotlib plotting: UI.
- `epochs_without_improvement` and the early-stopping names reassigned before the test pass: assigned but never read.
