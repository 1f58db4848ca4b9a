# A verified model of the recursive sentiment network's training script

`assignment3/rnn.py` trains a recursive neural network that classifies the
sentiment of parsed sentences. Most of the script is TensorFlow calls. This
project models the bookkeeping around those calls and proves what it does.

- **Scores** (`Scores.dfy`)
  - `predictions`: the argmax of each row of class scores.
  - `make_conf`: the 2x2 confusion matrix filled from zipped (label, prediction) pairs.
    numpy's negative indices are modelled, and so is the `IndexError` raised for any other index.
- **Trees** (`Trees.dfy`)
  - `add_model`: the bottom-up walk that gives every node of a parse tree a vector.
    The vector arithmetic is kept abstract: the embedding lookup, `relu(concat(l, r) W1 + b1)` and the projection are the three functions of a `Weights` record.
  - `inference`: picks the root row, or the rows of every node whose label is not 2.
  - The training-label filter `[l for l in tree.labels if l != 2]`.
- **Batching** (`Batching.dfy`): how `predict` and `run_epoch` cut a list of trees into batches of at most `RESET_AFTER` (100) trees.
- **Control** (`Control.dfy`): the epoch-level state of `train`.
  - Learning-rate annealing.
  - The best validation loss and the epoch that reached it.
  - The early-stopping marker `stopped`.
  - All of this is a left fold of one `EpochStep` over the epoch losses and validation losses, with `float('inf')` written as `Bound.Inf`.
- **Model** (`Model.dfy`): the class `RnnModel`, with `predict`, `run_epoch` and `train` as methods over its mutable state.
  - That state is the learning rate `self.config.lr`, the temporary checkpoint file and the best checkpoint file.
  - A ghost log, `saved`, records every write of the temporary checkpoint.
  - The TensorFlow operations are parameters of an `Ops` record: the loss, one optimizer update, the variable initializer and `np.mean`.
  - The methods are proved against the functions `TrainTrees`, `EpochRun`, `Control.Run` and `Control.Rates`, which say what the weights, losses and control state are after each step.

Behaviours of the script that the model keeps:

- `new_model` is never cleared inside `run_epoch`'s loop. In the first epoch, every batch therefore starts from a fresh initialisation and none restores the temporary checkpoint (`Model.NewModelRestartsEveryBatch`).
- In later epochs the batches chain into one uninterrupted training run over all trees (`Model.ContinuedEpochTrainsOnce`).
- `train` never breaks out of its loop. `stopped` only records the last epoch that lay more than `early_stopping` epochs after the best one (`Control.StoppedIsLastStale`), and all `max_epochs` epochs run.
  The comment at `assignment3/rnn.py:402` speaks of stopping, but the `break` at line 405 is commented out; the model follows the code.
- `__init__` leaves `./weights` alone. Checkpoint files an earlier run left behind are there from the start: the constructor takes both files' initial states.
- `run_epoch` on an empty training set raises: at `saver.restore` (line 288, reached from line 353) when the dev set is not empty and no temporary checkpoint exists, and otherwise at `file_writer.close()` (line 358), since `file_writer` was never bound. The model reports this as a failed epoch (`ok` is false).
  The same happens when the temporary checkpoint to restore does not exist, and when a root label is an index the confusion matrix cannot take.
- For `anneal_threshold >= 0` the first epoch never anneals, because the previous epoch loss starts infinite (`Control.Initial`).
  For a negative threshold, `inf * anneal_threshold` is `-inf`, and the first epoch does anneal.
  The comparison `epoch_loss > inf * anneal_threshold` is read as IEEE arithmetic reads it (`Control.Exceeds`).

## Model

| member | source | states |
|---|---|---|
| `Scores.ArgMax` | assignment3/rnn.py:271 | the index returned holds the largest score of the row, and no earlier index holds a score as large (on ties the model picks the first index; `tf.argmax` does not document its choice) |
| `Scores.Predictions` | assignment3/rnn.py:255-273 | one prediction per row; each is a valid class index whose score is the row's maximum |
| `Scores.ArgMaxIsMax` | assignment3/rnn.py:271 | the score at the argmax equals the row maximum, which is defined without indices |
| `Scores.Cell` | assignment3/rnn.py:420 | an in-range numpy index selects row `i` or, for a negative `i`, row `i + 2` |
| `Scores.Zip` | assignment3/rnn.py:419 | `zip` yields as many pairs as the shorter of its arguments |
| `Scores.Count` | assignment3/rnn.py:419-420 | the number of pairs that land in cell [a, b], never more than the number of pairs |
| `Scores.MakeConf` | assignment3/rnn.py:417-421 | the matrix is 2x2; it is built exactly when every zipped index is one numpy accepts; then cell [a, b] holds the number of pairs that land in it |
| `Scores.CountTotal` | assignment3/rnn.py:417-421 | the four cells add up to the number of zipped pairs, `min(len(labels), len(predictions))` |
| `Scores.CountByValue` | assignment3/rnn.py:417-421 | each pair increments exactly the cell it names, counting negative-index aliases, and no other; so the counts do not depend on pair order |
| `Scores.ConfusionOfBinaryPairs` | assignment3/rnn.py:417-421 | for labels and predictions in {0, 1}, nothing raises, and cell [a, b] is the number of pairs equal to (a, b) |
| `Trees.PostOrder` | assignment3/rnn.py:142-175 | the subtree's nodes in the order `add_model` inserts them: children first, and the node itself last |
| `Trees.AddModel` | assignment3/rnn.py:96-176 | the dictionary's keys are exactly the nodes of the subtree, and the node itself maps to its composed vector |
| `Trees.AddModelValues` | assignment3/rnn.py:96-176 | every node of the subtree maps to its own vector `Trees.Vec`: the embedding for a leaf (line 133), the composition of its children's vectors for an internal node (lines 168-171) |
| `Trees.Kept` | assignment3/rnn.py:63 | a node is kept exactly when it is one of the input nodes and its label is not 2 |
| `Trees.KeptNodesKeepLabelOrder` | assignment3/rnn.py:63 | the labels of the kept nodes are, in order, the node labels with every 2 filtered out |
| `Trees.KeptAppend` | assignment3/rnn.py:63 | the node filter distributes over concatenation, so the kept nodes keep their input order |
| `Trees.KeptLabels` | assignment3/rnn.py:327 | every training label is one of the tree's labels and is not 2 |
| `Trees.KeptLabelsMultiset` | assignment3/rnn.py:327 | the filter removes every 2 and keeps every other label as often as it occurs |
| `Trees.KeptLabelsAppend` | assignment3/rnn.py:327 | the filter keeps order: filtering a concatenation concatenates the filtered parts |
| `Trees.KeptRows` | assignment3/rnn.py:63 | one row per node whose label is not 2 |
| `Trees.InferenceRows` | assignment3/rnn.py:59-66 | root-only inference feeds exactly the root's vector to the projection |
| `Trees.Project` | assignment3/rnn.py:194-197 | one logits row per input row: the projection of that row |
| `Trees.Inference` | assignment3/rnn.py:51-67 | one logits row per row `inference` selects |
| `Trees.KeptRowsAreVectors` | assignment3/rnn.py:63 | the rows taken from a dictionary of true vectors are the vectors of the kept nodes, in order |
| `Trees.FullInferenceRows` | assignment3/rnn.py:59-66 | full-tree inference feeds, in post-order, the vector of exactly the nodes labelled other than 2 |
| `Trees.KeptCount` | assignment3/rnn.py:63 | the number of kept nodes equals the number of their labels that survive the label filter |
| `Trees.KeptLabelsLength` | assignment3/rnn.py:327 | the filter shortens the label list by the number of 2s in it |
| `Trees.RowsMatchTrainingLabels` | assignment3/rnn.py:326-328 | when `tree.labels` holds the node labels, the loss gets one logits row per training label |
| `Batching.CeilDiv` | assignment3/rnn.py:284 | the batch count is the least q with q * R >= n |
| `Batching.Slice` | assignment3/rnn.py:289 | the Python slice `s[lo:hi]`: at most `hi - lo` items, lying inside the list, item i being `s[lo + i]` |
| `Batching.Batch` | assignment3/rnn.py:289 | batch i holds at most R trees, lies inside the list, and its j-th tree is tree `i*R + j` |
| `Batching.BatchAt` | assignment3/rnn.py:289 | a batch that starts inside the list is the slice from `i*R` of at most R trees |
| `Batching.BatchesPrefix` | assignment3/rnn.py:307-340 | the first i batches cover exactly the first `min(i*R, n)` trees, in order |
| `Batching.BatchesPartition` | assignment3/rnn.py:284-289 | the `ceil(n / R)` batches of `Batching.Batches`, batch i being `trees[i*R:(i+1)*R]`, concatenate back to the input, none is empty, and none holds more than R trees |
| `Batching.BatchSize` | assignment3/rnn.py:322-324 | every batch holds between 1 and R trees |
| `Control.FirstMin` | assignment3/rnn.py:393-400 | the index returned is the first position of the least value |
| `Control.LastStale` | assignment3/rnn.py:402-404 | the last epoch more than `early_stopping` epochs after its best epoch, or -1 when there is none |
| `Control.Initial` | assignment3/rnn.py:372-375 | the state before the first epoch: every validation loss is an improvement on it, a non-negative threshold never anneals against it (the test `Control.Exceeds` of line 388, with `inf * k` read as IEEE does), the best epoch is 0 and `stopped` is -1 |
| `Control.EpochStep` | assignment3/rnn.py:386-404 | one epoch's update: the previous loss becomes this epoch's loss; for `anneal_by >= 1` the rate stays positive and does not grow; the best loss never increases and is at most this validation loss; the best epoch is this epoch or unchanged; `stopped` becomes this epoch when it is stale, and otherwise stays unchanged |
| `Control.Run` | assignment3/rnn.py:376-405 | the state after the epoch loop as a fold of `EpochStep`; after at least one epoch the best epoch is one of the epochs run, with a finite best loss, and `stopped` is -1 or an epoch run |
| `Control.Rates` | assignment3/rnn.py:376-391 | one learning rate per epoch |
| `Control.RatesArePrefixRates` | assignment3/rnn.py:386-391 | epoch e trains at the learning rate left by the first e epochs |
| `Control.RateSchedule` | assignment3/rnn.py:386-391 | for `anneal_threshold >= 0`: epoch e trains at `lr / anneal_by^k`, where k counts the annealings before it |
| `Control.AnnealStep` | assignment3/rnn.py:387-391 | for `anneal_threshold >= 0`: epoch k divides the rate by `anneal_by` exactly when k > 0 and its loss exceeds the previous loss times `anneal_threshold` |
| `Control.LearningRateSchedule` | assignment3/rnn.py:386-391 | for `anneal_threshold >= 0`: the rate after a run of epochs is the initial rate divided by `anneal_by` once per annealing epoch |
| `Control.AnnealedIsDivision` | assignment3/rnn.py:389 | dividing n times by b is dividing once by b to the n |
| `Control.LearningRateNeverGrows` | assignment3/rnn.py:386-391 | for `anneal_by >= 1` the rate stays positive and never grows from epoch to epoch |
| `Control.BestIsFirstMinimum` | assignment3/rnn.py:373-400 | `best_val_loss` is the least validation loss so far, and `best_val_epoch` is the first epoch that reached it |
| `Control.PromotedExactlyOnNewMinimum` | assignment3/rnn.py:394-397 | epoch k promotes its checkpoint exactly when its validation loss is strictly below every earlier one |
| `Control.BestChangesOnlyOnImprovement` | assignment3/rnn.py:393-400 | the best loss and epoch change only on strict improvement, and the best loss never increases |
| `Control.BestEpochNotInFuture` | assignment3/rnn.py:374-400 | the best epoch is never later than the last epoch run |
| `Control.StoppedIsLastStale` | assignment3/rnn.py:375-405 | `stopped` ends as the last epoch more than `early_stopping` after its best epoch, or -1; the loop does not stop there |
| `Control.NegativePatienceStopsEveryEpoch` | assignment3/rnn.py:403-404 | with a negative `early_stopping` every epoch is stale, and `stopped` ends as the last epoch |
| `Model.RootPrediction` | assignment3/rnn.py:290-292 | a tree's root prediction is a valid class index |
| `Model.ConfusionAccepts` | assignment3/rnn.py:354-365 | `make_conf` on the root labels and root predictions raises exactly when some root label is an index numpy rejects |
| `Model.StepsAppend` | assignment3/rnn.py:322-340 | training on a + b is training on a, then on b from the weights a left |
| `Model.TrainTrees` | assignment3/rnn.py:325-331 | training on a run of trees records one loss per tree |
| `Model.EpochRun` | assignment3/rnn.py:307-345 | an epoch saves one checkpoint per batch; batch k starts from `Model.StartOf` (lines 310-315: a fresh initialisation with `new_model`, otherwise the temporary checkpoint as the previous batch left it) |
| `Model.SessionProgressStep` | assignment3/rnn.py:322-340 | one more training step on the next tree extends the weights, the losses and the summary flag as one session does |
| `Model.EpochProgressStep` | assignment3/rnn.py:307-345 | one more batch, trained from a fresh initialisation or from the temporary checkpoint, extends the checkpoints, losses and saved files of the epoch |
| `Model.EpochProgressDone` | assignment3/rnn.py:307 | when `step` passes the last tree, every batch has been trained |
| `Model.EpochRunLosses` | assignment3/rnn.py:331 | an epoch records one loss per tree of its batches |
| `Model.ContinuedEpochTrainsOnce` | assignment3/rnn.py:313-315 | without `new_model` the epoch is one training run over all trees from the temporary checkpoint |
| `Model.NewModelRestartsEveryBatch` | assignment3/rnn.py:310-312 | with `new_model` the checkpoint after batch k is training batch k alone from fresh initialisation k |
| `Model.ReportedAt` | assignment3/rnn.py:352-366 | every epoch's loss is the mean of its per-tree losses, and its accuracies and validation loss come from predicting with its checkpoint |
| `Model.ChainedAt` | assignment3/rnn.py:376-381 | the first epoch is a new-model epoch; each later one trains all trees from the previous epoch's checkpoint at that epoch's rate |
| `Model.TrainProgressStep` | assignment3/rnn.py:382-405 | an epoch folded into the control state keeps the invariant of `train`: the rate and `stopped` follow the fold, and the best checkpoint is the epoch with least validation loss |
| `Model.RnnModel.constructor` | assignment3/rnn.py:275-278 | the model starts from its config's rate, with the temporary and best checkpoint files as it finds them |
| `Model.RnnModel.PredictBatch` | assignment3/rnn.py:289-297 | the root prediction of every tree of the batch and, with `get_loss`, its root loss `Model.RootLoss` (lines 293-296) |
| `Model.RnnModel.Predict` | assignment3/rnn.py:280-298 | of its own bookkeeping, fails only when there is a tree to predict and no checkpoint; otherwise one session per batch, one prediction per tree in input order, and `len(trees)` losses with `get_loss`, none without |
| `Model.RnnModel.TrainSession` | assignment3/rnn.py:322-340 | up to `RESET_AFTER` steps from `step`, stopping at the end of the data; weights and losses are those of training on exactly those trees, one `Model.TrainStep` each (lines 325-331: the loss before the update, on the labels other than 2); a summary is written exactly when a step index is a multiple of `verbose` (`Model.Summarised`, line 332) |
| `Model.RnnModel.TrainBatch` | assignment3/rnn.py:308-345 | a batch fails only when it must restore a missing checkpoint; otherwise it trains its slice and saves the temporary checkpoint |
| `Model.RnnModel.TrainEpoch` | assignment3/rnn.py:300-345 | the training loop saves one checkpoint per batch, the temporary checkpoint ends as the last one, and the losses are those of `EpochRun`; a summary is written exactly when there is a tree |
| `Model.RnnModel.RunEpoch` | assignment3/rnn.py:300-366 | apart from errors inside TensorFlow, `run_epoch` succeeds exactly when there are trees, a start checkpoint and in-range root labels; it returns `len(train_data)` losses, one checkpoint per batch, and the accuracies (`Model.Accuracy`, the mean of `Model.Matches` over the predictions and `Model.RootLabels`, lines 354-357) and mean validation loss of the final checkpoint |
| `Model.RnnModel.RunEpochOfTrain` | assignment3/rnn.py:378-384 | one epoch of `train` extends the records of what every epoch reported and of how its checkpoint was trained |
| `Model.RnnModel.TrainLoopStep` | assignment3/rnn.py:376-405 | one pass of the epoch loop keeps the invariant of `train`, and fails exactly when `run_epoch` does |
| `Model.RnnModel.EndEpoch` | assignment3/rnn.py:385-405 | the end of a pass: the temporary checkpoint becomes the best one exactly on a new least validation loss, and the rate and `stopped` take the epoch in, keeping the invariant of `train` |
| `Model.RnnModel.TrainLoop` | assignment3/rnn.py:368-405 | after `max_epochs` epochs, the invariant of `train` holds for the control state the losses lead to; with `max_epochs = 0` the best checkpoint is untouched |
| `Model.RnnModel.Train` | assignment3/rnn.py:368-415 | it runs all `max_epochs` epochs and the histories have one entry per epoch; with `max_epochs = 0` nothing changes. It also fixes what each result is: the learning rate, `stopped` and the best checkpoint are those of the fold (for a non-empty dev set; see "## Left out"), the temporary checkpoint is the last epoch's, each epoch's report comes from its checkpoint, and each epoch trains from the previous one |

## Left out

- The TensorFlow graph itself is abstract: `add_model_vars`, the matrix arithmetic of `add_model` and `add_projections`, the loss of `loss` (softmax cross entropy plus `l2_loss`), and the Nesterov momentum optimizer of `training`. The model uses abstract functions for them: the `Weights` and `Ops` records.
  - Errors raised inside TensorFlow are not modelled, and `ok` covers only the failures of the bookkeeping. Three examples:
    - Root-only inference on a tree whose root is a leaf hands a rank-1 embedding row to `tf.matmul` (lines 61, 133, 197).
    - Full-tree inference on a tree with no node labelled other than 2 concatenates an empty list (line 66).
    - The sparse cross entropy rejects a label outside {0, 1}, such as a root label of -1 in `predict` (lines 221, 295), although `make_conf` accepts it.
  - A fresh optimizer is built for every tree. Its momentum slots, and whether they are initialised, are not modelled: each step is one abstract update.
- Floating-point arithmetic is not modelled. Losses, accuracies and rates are reals, and `float('inf')` is `Bound.Inf`; NaN is not modelled.
- `Model.RnnModel.Train`: with an empty `dev_data`, `np.mean([])` at line 366 is NaN, `val_loss < best_val_loss` at line 394 is false, and the script never copies a checkpoint to the best files. The model's `mean` of no losses is a real, so epoch 0 is promoted and the best checkpoint is the fold's. The contract holds as the script behaves only for a non-empty dev set.
  - `Model.RnnModel.TrainLoop`, `Model.RnnModel.TrainLoopStep` and `Model.RnnModel.EndEpoch` promote on an empty dev set in the same way.
  - The values `np.mean` returns are kept abstract as well.
- Sessions, savers and the checkpoint files are kept abstract. A checkpoint file is an optional value of weights.
  - Saving overwrites it. Restoring a missing file fails.
  - Copying the temporary files to the best ones is one assignment.
  - File names, the `./weights` directory and `model_name` are not modelled.
- The loss summary and its `FileWriter` are modelled only as whether one was written. Their contents, `RunOptions` tracing and the timeline are not modelled.
- Standard output (the progress line, the printed accuracies and confusion matrices), `setup_logging`, the plotting and `test_RNN` are not modelled.
- `load_data`, `Vocab` and the `tree` module are not part of this model. Trees come in already loaded, and a node's identity is its `id` field.
  - `Trees.AddModelValues` and `Trees.FullInferenceRows` need distinct nodes to have distinct ids. A Python dictionary keyed by node objects gets this for free.
- `Trees.FullInferenceRows`: the post-order of the rows assumes that `node_tensors.items()` (line 63) yields the nodes in insertion order. Python guarantees this from 3.7 (CPython from 3.6); on Python 3.5 a dictionary keyed by objects iterates in hash order, and only the set of rows is as stated.
- `Trees.RowsMatchTrainingLabels` assumes that `tree.labels` holds the labels of the tree's nodes. The `tree` module that builds that list is not part of this model, so this cannot be derived.
- `Model.RnnModel.Train`: requires `anneal_by != 0`. With 0 the script raises `ZeroDivisionError`, but only in an epoch that anneals; that error path is not modelled.
  - `Model.RnnModel.TrainLoop`, `Model.RnnModel.TrainLoopStep` and the `Control` fold carry the same requirement.
- `Control.Config`: `max_epochs` is a `nat`. A negative `max_epochs` makes `range` empty at line 376, so the script then runs no epoch, as with 0; the model cannot take that input.
- `Batching.CeilDiv`: integer ceiling division. The script divides in floating point, which agrees with it for any list a float can count exactly.
- The `verbose` argument of `run_epoch` is fixed at its default 10 (`Verbose`), the value `train` uses. `train`'s own `verbose` only affects output.
