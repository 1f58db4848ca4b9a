/**
 * `RNN_Model`: prediction over a list of trees in batches (`predict`), one
 * training epoch (`run_epoch`) and the epoch loop (`train`). The model object
 * holds the data, the learning rate of its config and the two checkpoint files
 * on disk: the temporary one every batch saves, and the best one `train`
 * copies it to.
 */
module Model {
  import opened Wrappers
  import opened Scores
  import opened Trees
  import opened Batching
  import Control

  /** `verbose` of `run_epoch`: a loss summary is written every this many steps. */
  const Verbose: nat := 10

  /**
   * The TensorFlow and numpy operations the script relies on, kept abstract:
   * the training loss of a set of logits against labels (mean softmax cross
   * entropy plus the L2 penalty), one optimizer update on one tree at a given
   * learning rate, the i-th draw of the random variable initializer, and
   * `np.mean`.
   */
  datatype Ops<!V> = Ops(
    loss: (seq<Logits>, seq<int>) -> real,
    optimize: (Weights<V>, Tree, seq<int>, real) -> Weights<V>,
    initial: nat -> Weights<V>,
    mean: seq<real> -> real)

  // ---------------------------------------------------------------------
  // What one tree contributes

  /** `sess.run(predictions)[0]` for the root-only logits of a tree. */
  function RootPrediction<V>(w: Weights<V>, t: Tree): (p: nat)
    ensures p < LabelSize
  {
    Predictions(Inference(w, t, true))[0]
  }

  /** The loss of the root-only logits against the root's label. */
  function RootLoss<V>(ops: Ops<V>, w: Weights<V>, t: Tree): real
  {
    ops.loss(Inference(w, t, true), [t.root.nodeLabel])
  }

  function RootPredictions<V>(w: Weights<V>, trees: seq<Tree>): (ps: seq<nat>)
    ensures |ps| == |trees|
    ensures forall i {:trigger ps[i]} :: 0 <= i < |trees| ==> ps[i] == RootPrediction(w, trees[i])
  {
    seq(|trees|, i requires 0 <= i < |trees| => RootPrediction(w, trees[i]))
  }

  function RootLosses<V>(ops: Ops<V>, w: Weights<V>, trees: seq<Tree>): (ls: seq<real>)
    ensures |ls| == |trees|
    ensures forall i {:trigger ls[i]} :: 0 <= i < |trees| ==> ls[i] == RootLoss(ops, w, trees[i])
  {
    seq(|trees|, i requires 0 <= i < |trees| => RootLoss(ops, w, trees[i]))
  }

  /** `[t.root.label for t in trees]`. */
  function RootLabels(trees: seq<Tree>): (ls: seq<int>)
    ensures |ls| == |trees|
  {
    seq(|trees|, i requires 0 <= i < |trees| => trees[i].root.nodeLabel)
  }

  /** `np.equal(preds, labels)` as the 0/1 values `mean` averages. */
  function Matches(preds: seq<nat>, labels: seq<int>): (m: seq<real>)
    requires |preds| == |labels|
    ensures |m| == |preds|
  {
    seq(|preds|, i requires 0 <= i < |preds| => if preds[i] == labels[i] then 1.0 else 0.0)
  }

  predicate RootLabelsInRange(trees: seq<Tree>)
  {
    forall i :: 0 <= i < |trees| ==> InRange(trees[i].root.nodeLabel)
  }

  /**
   * `make_conf` on root labels and root predictions fails exactly when some
   * root label is an index numpy rejects: predictions are always 0 or 1.
   */
  lemma ConfusionAccepts<V>(w: Weights<V>, trees: seq<Tree>)
    ensures AllInRange(Zip(RootLabels(trees), RootPredictions(w, trees))) <==> RootLabelsInRange(trees)
  {
    var ps := Zip(RootLabels(trees), RootPredictions(w, trees));
    assert |ps| == |trees|;
    assert forall i :: 0 <= i < |trees| ==> ps[i] == (trees[i].root.nodeLabel, RootPrediction(w, trees[i]));
  }

  lemma RootPredictionsAppend<V>(w: Weights<V>, a: seq<Tree>, b: seq<Tree>)
    ensures RootPredictions(w, a + b) == RootPredictions(w, a) + RootPredictions(w, b)
  {
  }

  lemma RootLossesAppend<V>(ops: Ops<V>, w: Weights<V>, a: seq<Tree>, b: seq<Tree>)
    ensures RootLosses(ops, w, a + b) == RootLosses(ops, w, a) + RootLosses(ops, w, b)
  {
  }

  // ---------------------------------------------------------------------
  // Training on a run of trees

  /**
   * One training step on one tree (`sess.run([loss, train_op])`): the loss of
   * the logits of every labelled node against the filtered labels, taken
   * before the update, and the weights after one optimizer update.
   */
  function TrainStep<V>(ops: Ops<V>, lr: real): (Weights<V>, Tree) -> (Weights<V>, real)
  {
    (w: Weights<V>, t: Tree) =>
      var labels := KeptLabels(t.labels);
      (ops.optimize(w, t, labels, lr), ops.loss(Inference(w, t, false), labels))
  }

  /** The weights after a run of steps, and the loss each step reported. */
  datatype Trained<!W> = Trained(weights: W, losses: seq<real>)

  /** Steps over the items in order, each from the weights the previous one left. */
  function Steps<W, T>(step: (W, T) -> (W, real), w: W, ts: seq<T>): (r: Trained<W>)
    ensures |r.losses| == |ts|
  {
    if ts == [] then Trained(w, [])
    else
      var prev := Steps(step, w, ts[..|ts| - 1]);
      var (w', loss) := step(prev.weights, ts[|ts| - 1]);
      Trained(w', prev.losses + [loss])
  }

  /** Stepping over a + b is stepping over a, then over b from where a left off. */
  lemma {:induction false} StepsAppend<W, T>(step: (W, T) -> (W, real), w: W, a: seq<T>, b: seq<T>)
    ensures Steps(step, w, a + b).weights == Steps(step, Steps(step, w, a).weights, b).weights
    ensures Steps(step, w, a + b).losses == Steps(step, w, a).losses + Steps(step, Steps(step, w, a).weights, b).losses
  {
    if b == [] {
      assert a + b == a;
    } else {
      var n := |b| - 1;
      var ab := a + b;
      StepsAppend(step, w, a, b[..n]);
      assert ab[..|ab| - 1] == a + b[..n];
      assert ab[|ab| - 1] == b[n];
    }
  }

  /** Training on the trees in order, from weights w. */
  function TrainTrees<V>(ops: Ops<V>, w: Weights<V>, trees: seq<Tree>, lr: real): (r: Trained<Weights<V>>)
    ensures |r.losses| == |trees|
  {
    Steps(TrainStep(ops, lr), w, trees)
  }

  /** The checkpoint each batch of an epoch saved, and the per-tree training losses. */
  datatype Epoch<!V> = Epoch(ckpts: seq<Weights<V>>, losses: seq<real>)

  /**
   * One epoch of `run_epoch` over the given batches. Every batch starts from a
   * fresh initialisation when `newModel` is set (the flag is never cleared),
   * and otherwise from the checkpoint the previous batch saved, the first one
   * from the temporary checkpoint already on disk.
   */
  function EpochRun<V>(ops: Ops<V>, lr: real, newModel: bool, temp0: Option<Weights<V>>, batches: seq<seq<Tree>>): (r: Epoch<V>)
    requires newModel || temp0.Some?
    ensures |r.ckpts| == |batches|
  {
    if batches == [] then Epoch([], [])
    else
      var k := |batches| - 1;
      var prev := EpochRun(ops, lr, newModel, temp0, batches[..k]);
      var run := TrainTrees(ops, StartOf(ops, newModel, temp0, prev.ckpts, k), batches[k], lr);
      Epoch(prev.ckpts + [run.weights], prev.losses + run.losses)
  }

  /** Step s of `run_epoch` writes a loss summary (and binds `file_writer`). */
  predicate Summarised(s: nat)
  {
    s % Verbose == 0
  }

  /**
   * What holds after the steps of one session from tree `step` up to tree
   * `end`: the weights and losses are those of training on those trees from
   * w, and a summary was written when one of them was a summary step.
   */
  ghost predicate SessionProgress<V>(ops: Ops<V>, lr: real, w: Weights<V>, trainData: seq<Tree>, step: nat, end: nat,
    next: Weights<V>, losses: seq<real>, wrote: bool)
  {
    && step <= end <= |trainData|
    && Trained(next, losses) == TrainTrees(ops, w, trainData[step..end], lr)
    && (wrote <==> exists s :: step <= s < end && Summarised(s))
  }

  /** One more training step, on tree `end`, keeps `SessionProgress`. */
  lemma SessionProgressStep<V>(ops: Ops<V>, lr: real, w: Weights<V>, trainData: seq<Tree>, step: nat, end: nat,
    next: Weights<V>, losses: seq<real>, wrote: bool)
    requires SessionProgress(ops, lr, w, trainData, step, end, next, losses, wrote)
    requires end < |trainData|
    ensures
      var tree := trainData[end];
      var labels := KeptLabels(tree.labels);
      SessionProgress(ops, lr, w, trainData, step, end + 1, ops.optimize(next, tree, labels, lr),
        losses + [ops.loss(Inference(next, tree, false), labels)], wrote || Summarised(end))
  {
    assert trainData[step..end + 1][..end - step] == trainData[step..end];
    assert trainData[step..end + 1][end - step] == trainData[end];
  }

  /**
   * What holds after `batchIndex` sessions of the training loop of
   * `run_epoch`, of which the first `step` trees are done: every session
   * saved its checkpoint, the last one is the temporary checkpoint, a
   * summary was written as soon as one tree was, and the checkpoints and
   * losses are those of `EpochRun` over the batches done.
   */
  ghost predicate EpochProgress<V>(ops: Ops<V>, lr: real, newModel: bool, temp0: Option<Weights<V>>, trainData: seq<Tree>,
    saved0: seq<Weights<V>>, saved: seq<Weights<V>>, temp: Option<Weights<V>>,
    step: nat, batchIndex: nat, ckpts: seq<Weights<V>>, losses: seq<real>, summaryWritten: bool)
  {
    && step <= |trainData|
    && batchIndex <= CeilDiv(|trainData|, ResetAfter) && |ckpts| == batchIndex
    && step == Min(batchIndex * ResetAfter, |trainData|)
    && (summaryWritten <==> step > 0)
    && (batchIndex > 0 ==> newModel || temp0.Some?)
    && ((newModel || temp0.Some?) ==>
      Epoch(ckpts, losses) == EpochRun(ops, lr, newModel, temp0, Batches(trainData, ResetAfter)[..batchIndex]))
    && (batchIndex == 0 ==> losses == [])
    && saved == saved0 + ckpts
    && temp == if batchIndex == 0 then temp0 else Some(ckpts[batchIndex - 1])
  }

  /** One more session, trained as `TrainBatch` promises, keeps `EpochProgress`. */
  lemma EpochProgressStep<V>(ops: Ops<V>, lr: real, newModel: bool, temp0: Option<Weights<V>>, trainData: seq<Tree>,
    saved0: seq<Weights<V>>, saved: seq<Weights<V>>, temp: Option<Weights<V>>,
    step: nat, batchIndex: nat, ckpts: seq<Weights<V>>, losses: seq<real>, summaryWritten: bool,
    end: nat, next: Weights<V>, batchLosses: seq<real>, wrote: bool)
    requires EpochProgress(ops, lr, newModel, temp0, trainData, saved0, saved, temp, step, batchIndex, ckpts, losses, summaryWritten)
    requires step < |trainData| && (newModel || temp.Some?)
    requires
      var run := TrainTrees(ops, if newModel then ops.initial(batchIndex) else temp.value, Batch(trainData, ResetAfter, batchIndex), lr);
      && end == Min(step + ResetAfter, |trainData|)
      && next == run.weights && batchLosses == run.losses
      && (wrote <==> exists s :: step <= s < end && Summarised(s))
    ensures EpochProgress(ops, lr, newModel, temp0, trainData, saved0, saved + [next], Some(next),
      end, batchIndex + 1, ckpts + [next], losses + batchLosses, summaryWritten || wrote)
  {
    BatchIndexBelowCount(|trainData|, ResetAfter, batchIndex);
    MulStep(batchIndex, ResetAfter);
    assert step == 0 ==> Summarised(0);
    var bs := Batches(trainData, ResetAfter);
    EpochRunSnoc(ops, lr, newModel, temp0, bs, batchIndex, ckpts, losses,
      StartOf(ops, newModel, temp0, ckpts, batchIndex), next, batchLosses);
  }

  /** When the loop has passed the last tree, every batch is done. */
  lemma EpochProgressDone<V>(ops: Ops<V>, lr: real, newModel: bool, temp0: Option<Weights<V>>, trainData: seq<Tree>,
    saved0: seq<Weights<V>>, saved: seq<Weights<V>>, temp: Option<Weights<V>>,
    step: nat, batchIndex: nat, ckpts: seq<Weights<V>>, losses: seq<real>, summaryWritten: bool)
    requires EpochProgress(ops, lr, newModel, temp0, trainData, saved0, saved, temp, step, batchIndex, ckpts, losses, summaryWritten)
    requires step >= |trainData| > 0
    ensures newModel || temp0.Some?
    ensures Epoch(ckpts, losses) == EpochRun(ops, lr, newModel, temp0, Batches(trainData, ResetAfter))
  {
    var bs := Batches(trainData, ResetAfter);
    BatchCountReached(|trainData|, ResetAfter, batchIndex);
    assert bs[..batchIndex] == bs;
  }

  /** An epoch records one loss per tree of its batches. */
  lemma {:induction false} EpochRunLosses<V>(ops: Ops<V>, lr: real, newModel: bool, temp0: Option<Weights<V>>, batches: seq<seq<Tree>>)
    requires newModel || temp0.Some?
    ensures |EpochRun(ops, lr, newModel, temp0, batches).losses| == |Flatten(batches)|
  {
    if batches != [] {
      EpochRunLosses(ops, lr, newModel, temp0, batches[..|batches| - 1]);
    }
  }

  /** The batch an epoch trains on after k batches starts from this checkpoint. */
  function StartOf<V>(ops: Ops<V>, newModel: bool, temp0: Option<Weights<V>>, ckpts: seq<Weights<V>>, k: nat): Weights<V>
    requires newModel || temp0.Some?
    requires k <= |ckpts|
  {
    if newModel then ops.initial(k) else if k == 0 then temp0.value else ckpts[k - 1]
  }

  /**
   * Training batch k from the checkpoint `StartOf` names appends its
   * checkpoint and its losses to the record of the first k batches.
   */
  lemma EpochRunSnoc<V>(ops: Ops<V>, lr: real, newModel: bool, temp0: Option<Weights<V>>, batches: seq<seq<Tree>>, k: nat,
    ckpts: seq<Weights<V>>, losses: seq<real>, w: Weights<V>, next: Weights<V>, batchLosses: seq<real>)
    requires newModel || temp0.Some?
    requires k < |batches|
    requires Epoch(ckpts, losses) == EpochRun(ops, lr, newModel, temp0, batches[..k])
    requires w == StartOf(ops, newModel, temp0, ckpts, k)
    requires Trained(next, batchLosses) == TrainTrees(ops, w, batches[k], lr)
    ensures Epoch(ckpts + [next], losses + batchLosses) == EpochRun(ops, lr, newModel, temp0, batches[..k + 1])
  {
    assert batches[..k + 1][..k] == batches[..k];
  }

  /**
   * Without `new_model`, the batches chain: the epoch is one uninterrupted run
   * of training over all its trees, starting from the temporary checkpoint.
   */
  lemma {:induction false} ContinuedEpochTrainsOnce<V>(ops: Ops<V>, lr: real, temp0: Weights<V>, batches: seq<seq<Tree>>)
    ensures var r := EpochRun(ops, lr, false, Some(temp0), batches);
      var whole := TrainTrees(ops, temp0, Flatten(batches), lr);
      r.losses == whole.losses && (batches != [] ==> r.ckpts[|batches| - 1] == whole.weights)
  {
    if batches != [] {
      var k := |batches| - 1;
      ContinuedEpochTrainsOnce(ops, lr, temp0, batches[..k]);
      StepsAppend(TrainStep(ops, lr), temp0, Flatten(batches[..k]), batches[k]);
    }
  }

  /**
   * With `new_model`, every batch starts again from a fresh initialisation:
   * the checkpoint after batch k depends on batch k alone.
   */
  lemma {:induction false} NewModelRestartsEveryBatch<V>(ops: Ops<V>, lr: real, temp0: Option<Weights<V>>, batches: seq<seq<Tree>>)
    ensures var r := EpochRun(ops, lr, true, temp0, batches);
      forall k :: 0 <= k < |batches| ==> r.ckpts[k] == TrainTrees(ops, ops.initial(k), batches[k], lr).weights
  {
    if batches != [] {
      var n := |batches| - 1;
      NewModelRestartsEveryBatch(ops, lr, temp0, batches[..n]);
      var r := EpochRun(ops, lr, true, temp0, batches);
      var r' := EpochRun(ops, lr, true, temp0, batches[..n]);
      forall k | 0 <= k < |batches|
        ensures r.ckpts[k] == TrainTrees(ops, ops.initial(k), batches[k], lr).weights
      {
        if k < n {
          assert r.ckpts[k] == r'.ckpts[k];
          assert batches[..n][k] == batches[k];
        }
      }
    }
  }

  // ---------------------------------------------------------------------
  // What the epochs of train report

  /** `np.equal(preds, labels).mean()` for the root predictions from w. */
  function Accuracy<V>(ops: Ops<V>, w: Weights<V>, trees: seq<Tree>): real
  {
    ops.mean(Matches(RootPredictions(w, trees), RootLabels(trees)))
  }

  /**
   * Epoch by epoch: the epoch loss is the mean of the epoch's per-tree
   * losses, and the accuracies and the validation loss are those of
   * predicting from the checkpoint the epoch ended with.
   */
  ghost predicate Reported<V>(ops: Ops<V>, trainData: seq<Tree>, devData: seq<Tree>, temps: seq<Weights<V>>,
    histories: seq<seq<real>>, epochLosses: seq<real>, trainAccs: seq<real>, valAccs: seq<real>, valLosses: seq<real>)
    requires |histories| == |epochLosses| == |trainAccs| == |valAccs| == |valLosses| == |temps|
  {
    temps != [] ==>
      var n := |temps| - 1;
      && Reported(ops, trainData, devData, temps[..n], histories[..n], epochLosses[..n], trainAccs[..n], valAccs[..n], valLosses[..n])
      && epochLosses[n] == ops.mean(histories[n])
      && trainAccs[n] == Accuracy(ops, temps[n], trainData)
      && valAccs[n] == Accuracy(ops, temps[n], devData)
      && valLosses[n] == ops.mean(RootLosses(ops, temps[n], devData))
  }

  lemma {:induction false} ReportedAt<V>(ops: Ops<V>, trainData: seq<Tree>, devData: seq<Tree>, temps: seq<Weights<V>>,
    histories: seq<seq<real>>, epochLosses: seq<real>, trainAccs: seq<real>, valAccs: seq<real>, valLosses: seq<real>)
    requires |histories| == |epochLosses| == |trainAccs| == |valAccs| == |valLosses| == |temps|
    requires Reported(ops, trainData, devData, temps, histories, epochLosses, trainAccs, valAccs, valLosses)
    ensures forall e :: 0 <= e < |temps| ==>
      && epochLosses[e] == ops.mean(histories[e])
      && trainAccs[e] == Accuracy(ops, temps[e], trainData)
      && valAccs[e] == Accuracy(ops, temps[e], devData)
      && valLosses[e] == ops.mean(RootLosses(ops, temps[e], devData))
  {
    if temps != [] {
      var n := |temps| - 1;
      ReportedAt(ops, trainData, devData, temps[..n], histories[..n], epochLosses[..n], trainAccs[..n], valAccs[..n], valLosses[..n]);
    }
  }

  /** Appending one epoch that reports as `Reported` requires keeps `Reported`. */
  lemma ReportedSnoc<V>(ops: Ops<V>, trainData: seq<Tree>, devData: seq<Tree>, temps: seq<Weights<V>>,
    histories: seq<seq<real>>, epochLosses: seq<real>, trainAccs: seq<real>, valAccs: seq<real>, valLosses: seq<real>,
    t: Weights<V>, h: seq<real>, el: real, ta: real, va: real, vl: real)
    requires |histories| == |epochLosses| == |trainAccs| == |valAccs| == |valLosses| == |temps|
    requires Reported(ops, trainData, devData, temps, histories, epochLosses, trainAccs, valAccs, valLosses)
    requires el == ops.mean(h) && vl == ops.mean(RootLosses(ops, t, devData))
    requires ta == Accuracy(ops, t, trainData) && va == Accuracy(ops, t, devData)
    ensures Reported(ops, trainData, devData, temps + [t], histories + [h], epochLosses + [el], trainAccs + [ta], valAccs + [va], valLosses + [vl])
  {
    var n := |temps|;
    assert (temps + [t])[..n] == temps && (histories + [h])[..n] == histories;
    assert (epochLosses + [el])[..n] == epochLosses && (valLosses + [vl])[..n] == valLosses;
    assert (trainAccs + [ta])[..n] == trainAccs && (valAccs + [va])[..n] == valAccs;
  }

  /** The checkpoint and per-tree losses of the first epoch, which builds a new model for every batch. */
  ghost predicate FirstEpoch<V>(ops: Ops<V>, trainData: seq<Tree>, temp0: Option<Weights<V>>, rate: real, t: Weights<V>, h: seq<real>)
  {
    && |trainData| > 0
    && var k := CeilDiv(|trainData|, ResetAfter) - 1;
    && h == EpochRun(ops, rate, true, temp0, Batches(trainData, ResetAfter)).losses
    && t == TrainTrees(ops, ops.initial(k), Batch(trainData, ResetAfter, k), rate).weights
  }

  /**
   * The checkpoints and per-tree losses of the epochs of `train`: the first
   * epoch is as `FirstEpoch` says, and every later epoch is one training run
   * over all training trees, from the checkpoint the previous epoch ended
   * with. `rates` holds each epoch's learning rate.
   */
  ghost predicate Chained<V>(ops: Ops<V>, trainData: seq<Tree>, temp0: Option<Weights<V>>, rates: seq<real>,
    temps: seq<Weights<V>>, histories: seq<seq<real>>)
    requires |rates| == |temps| == |histories|
  {
    if |temps| == 1 then
      FirstEpoch(ops, trainData, temp0, rates[0], temps[0], histories[0])
    else if |temps| > 1 then
      var n := |temps| - 1;
      var run := TrainTrees(ops, temps[n - 1], trainData, rates[n]);
      && Chained(ops, trainData, temp0, rates[..n], temps[..n], histories[..n])
      && temps[n] == run.weights && histories[n] == run.losses
    else
      true
  }

  lemma {:induction false} ChainedAt<V>(ops: Ops<V>, trainData: seq<Tree>, temp0: Option<Weights<V>>, rates: seq<real>,
    temps: seq<Weights<V>>, histories: seq<seq<real>>)
    requires |rates| == |temps| == |histories|
    requires Chained(ops, trainData, temp0, rates, temps, histories)
    ensures temps != [] ==> FirstEpoch(ops, trainData, temp0, rates[0], temps[0], histories[0])
    ensures forall e :: 0 < e < |temps| ==>
      var run := TrainTrees(ops, temps[e - 1], trainData, rates[e]);
      temps[e] == run.weights && histories[e] == run.losses
  {
    if |temps| > 1 {
      var n := |temps| - 1;
      ChainedAt(ops, trainData, temp0, rates[..n], temps[..n], histories[..n]);
    }
  }

  /** Appending one epoch that starts where `Chained` says keeps `Chained`. */
  lemma ChainedSnoc<V>(ops: Ops<V>, trainData: seq<Tree>, temp0: Option<Weights<V>>, rates: seq<real>,
    temps: seq<Weights<V>>, histories: seq<seq<real>>, rate: real, t: Weights<V>, h: seq<real>)
    requires |rates| == |temps| == |histories|
    requires Chained(ops, trainData, temp0, rates, temps, histories)
    requires temps == [] ==> FirstEpoch(ops, trainData, temp0, rate, t, h)
    requires temps != [] ==>
      var run := TrainTrees(ops, temps[|temps| - 1], trainData, rate);
      t == run.weights && h == run.losses
    ensures Chained(ops, trainData, temp0, rates + [rate], temps + [t], histories + [h])
  {
    var n := |temps|;
    assert (rates + [rate])[..n] == rates && (temps + [t])[..n] == temps && (histories + [h])[..n] == histories;
  }

  /**
   * What holds after `epoch` epochs of `train` started at learning rate lr0
   * and temporary checkpoint temp0, for the learning rate, temporary and
   * best checkpoints given: the control state is the one the recorded
   * losses lead to, the records are `Reported` and `Chained`, the temporary
   * checkpoint is the last epoch's and the best one is that of the epoch
   * with the least validation loss.
   */
  ghost predicate TrainProgress<V>(ops: Ops<V>, cfg: Control.Config, trainData: seq<Tree>, devData: seq<Tree>,
    lr: real, temp: Option<Weights<V>>, best: Option<Weights<V>>,
    epoch: nat, state: Control.State, stopped: int, lr0: real, temp0: Option<Weights<V>>,
    lossHistory: seq<real>, trainAccHistory: seq<real>, valAccHistory: seq<real>,
    epochLosses: seq<real>, valLosses: seq<real>, histories: seq<seq<real>>, temps: seq<Weights<V>>)
  {
    && cfg.annealBy != 0.0
    && |epochLosses| == |valLosses| == |histories| == |temps| == |trainAccHistory| == |valAccHistory| == epoch
    && state == Control.Run(cfg, lr0, epochLosses, valLosses) && lr == state.lr && stopped == state.stopped
    && lossHistory == Flatten(histories)
    && Reported(ops, trainData, devData, temps, histories, epochLosses, trainAccHistory, valAccHistory, valLosses)
    && Chained(ops, trainData, temp0, Control.Rates(cfg, lr0, epochLosses, valLosses), temps, histories)
    && (epoch == 0 ==> temp == temp0)
    && (epoch > 0 ==>
      && |trainData| > 0 && RootLabelsInRange(trainData) && RootLabelsInRange(devData)
      && temp == Some(temps[epoch - 1])
      && state.bestValEpoch < epoch
      && best == Some(temps[state.bestValEpoch]))
  }

  /**
   * An epoch that ends with checkpoint t and extends the records keeps
   * `TrainProgress` once the control state takes the epoch in: the learning
   * rate and `stopped` follow it, and t becomes the best checkpoint exactly
   * on a new least validation loss.
   */
  lemma TrainProgressStep<V>(ops: Ops<V>, cfg: Control.Config, trainData: seq<Tree>, devData: seq<Tree>,
    lr: real, temp: Option<Weights<V>>, best: Option<Weights<V>>,
    epoch: nat, state: Control.State, stopped: int, lr0: real, temp0: Option<Weights<V>>,
    lossHistory: seq<real>, trainAccHistory: seq<real>, valAccHistory: seq<real>,
    epochLosses: seq<real>, valLosses: seq<real>, histories: seq<seq<real>>, temps: seq<Weights<V>>,
    t: Weights<V>, trainAcc: real, valAcc: real, epochHistory: seq<real>, valLoss: real)
    requires TrainProgress(ops, cfg, trainData, devData, lr, temp, best, epoch, state, stopped, lr0, temp0,
      lossHistory, trainAccHistory, valAccHistory, epochLosses, valLosses, histories, temps)
    requires |trainData| > 0 && RootLabelsInRange(trainData) && RootLabelsInRange(devData)
    requires Reported(ops, trainData, devData, temps + [t], histories + [epochHistory], epochLosses + [ops.mean(epochHistory)],
      trainAccHistory + [trainAcc], valAccHistory + [valAcc], valLosses + [valLoss])
    requires Chained(ops, trainData, temp0, Control.Rates(cfg, lr0, epochLosses, valLosses) + [lr], temps + [t], histories + [epochHistory])
    ensures
      var state' := Control.EpochStep(cfg, state, epoch, ops.mean(epochHistory), valLoss);
      TrainProgress(ops, cfg, trainData, devData, state'.lr, Some(t), if Control.Below(valLoss, state.bestValLoss) then Some(t) else best,
        epoch + 1, state', state'.stopped, lr0, temp0, lossHistory + epochHistory, trainAccHistory + [trainAcc], valAccHistory + [valAcc],
        epochLosses + [ops.mean(epochHistory)], valLosses + [valLoss], histories + [epochHistory], temps + [t])
  {
    Control.RunSnoc(cfg, lr0, epochLosses, valLosses, ops.mean(epochHistory), valLoss);
    FlattenAppend(histories, [epochHistory]);
  }

  /** What `TrainProgress` gives the next epoch to start from. */
  lemma TrainProgressReady<V>(ops: Ops<V>, cfg: Control.Config, trainData: seq<Tree>, devData: seq<Tree>,
    lr: real, temp: Option<Weights<V>>, best: Option<Weights<V>>,
    epoch: nat, state: Control.State, stopped: int, lr0: real, temp0: Option<Weights<V>>,
    lossHistory: seq<real>, trainAccHistory: seq<real>, valAccHistory: seq<real>,
    epochLosses: seq<real>, valLosses: seq<real>, histories: seq<seq<real>>, temps: seq<Weights<V>>)
    requires TrainProgress(ops, cfg, trainData, devData, lr, temp, best, epoch, state, stopped, lr0, temp0,
      lossHistory, trainAccHistory, valAccHistory, epochLosses, valLosses, histories, temps)
    ensures var rates := Control.Rates(cfg, lr0, epochLosses, valLosses);
      && |rates| == |temps| == |histories| == |epochLosses| == |trainAccHistory| == |valAccHistory| == |valLosses| == epoch
      && (temps == [] ==> temp == temp0)
      && (temps != [] ==> temp == Some(temps[|temps| - 1]))
      && Reported(ops, trainData, devData, temps, histories, epochLosses, trainAccHistory, valAccHistory, valLosses)
      && Chained(ops, trainData, temp0, rates, temps, histories)
  {
  }

  class RnnModel<V> {
    /** The hyperparameters; the learning rate is the one attribute `train` changes, kept in `lr`. */
    const cfg: Control.Config
    const trainData: seq<Tree>
    const devData: seq<Tree>
    /** `self.config.lr`. */
    var lr: real
    /** The temporary checkpoint file, `<model_name>.temp`, if it exists. */
    var temp: Option<Weights<V>>
    /** The best checkpoint file, `<model_name>`, if it exists. */
    var best: Option<Weights<V>>
    /** Every write of the temporary checkpoint, in order. */
    ghost var saved: seq<Weights<V>>

    /**
     * `__init__` leaves `./weights` alone: the temporary and best checkpoint
     * files an earlier run left behind, if any, are there from the start.
     */
    constructor (cfg: Control.Config, trainData: seq<Tree>, devData: seq<Tree>, temp0: Option<Weights<V>>, best0: Option<Weights<V>>)
      ensures this.cfg == cfg && this.trainData == trainData && this.devData == devData
      ensures lr == cfg.lr && temp == temp0 && best == best0 && saved == []
    {
      this.cfg := cfg;
      this.trainData := trainData;
      this.devData := devData;
      lr := cfg.lr;
      temp := temp0;
      best := best0;
      saved := [];
    }

    /**
     * The inner loop of `predict`, in one session restored to w: the root
     * prediction of every tree of the batch and, with `getLoss`, the loss of
     * its root-only logits against its root label.
     */
    method PredictBatch(ops: Ops<V>, w: Weights<V>, batch: seq<Tree>, getLoss: bool)
      returns (results: seq<nat>, losses: seq<real>)
      ensures results == RootPredictions(w, batch)
      ensures losses == if getLoss then RootLosses(ops, w, batch) else []
    {
      results, losses := [], [];
      var j := 0;
      while j < |batch|
        invariant 0 <= j <= |batch|
        invariant results == RootPredictions(w, batch[..j])
        invariant losses == if getLoss then RootLosses(ops, w, batch[..j]) else []
      {
        var tree := batch[j];
        if getLoss {
          losses := losses + [RootLoss(ops, w, tree)];
        }
        results := results + [RootPrediction(w, tree)];
        j := j + 1;
      }
      assert batch[..j] == batch;
    }

    /**
     * `predict`: restores `weights` once per batch of at most `RESET_AFTER`
     * trees and predicts every root. Restoring a missing checkpoint fails;
     * an empty list opens no session and so never restores.
     */
    method Predict(ops: Ops<V>, trees: seq<Tree>, weights: Option<Weights<V>>, getLoss: bool)
      returns (ok: bool, results: seq<nat>, losses: seq<real>, sessions: nat)
      ensures ok <==> trees == [] || weights.Some?
      ensures ok ==> sessions == |Batches(trees, ResetAfter)|
      ensures ok ==> |results| == |trees| && |losses| == (if getLoss then |trees| else 0)
      ensures ok && weights.Some? ==> results == RootPredictions(weights.value, trees)
      ensures ok && weights.Some? && getLoss ==> losses == RootLosses(ops, weights.value, trees)
    {
      results, losses, sessions := [], [], 0;
      var n := |trees|;
      var count := CeilDiv(n, ResetAfter);
      var i := 0;
      while i < count
        invariant 0 <= i <= count && sessions == i
        invariant weights.None? ==> i == 0
        invariant |results| == Min(i * ResetAfter, n)
        invariant |losses| == if getLoss then |results| else 0
        invariant weights.Some? ==> results == RootPredictions(weights.value, trees[..|results|])
        invariant weights.Some? && getLoss ==> losses == RootLosses(ops, weights.value, trees[..|results|])
      {
        if weights.None? {
          ok := false;
          return;
        }
        sessions := sessions + 1;
        BatchStartsInside(n, ResetAfter, i);
        MulStep(i, ResetAfter);
        var lo, hi := i * ResetAfter, Min((i + 1) * ResetAfter, n);
        var batch := Batch(trees, ResetAfter, i);
        assert batch == trees[lo..hi];
        var batchResults, batchLosses := PredictBatch(ops, weights.value, batch, getLoss);
        assert trees[..hi] == trees[..lo] + batch;
        RootPredictionsAppend(weights.value, trees[..lo], batch);
        RootLossesAppend(ops, weights.value, trees[..lo], batch);
        results := results + batchResults;
        losses := losses + batchLosses;
        i := i + 1;
      }
      assert Min(count * ResetAfter, n) == n;
      assert trees[..n] == trees;
      ok := true;
    }

    /** The training loop of `run_epoch` runs to its end: there are trees, and a checkpoint to start from. */
    predicate Completes(newModel: bool)
      reads this
    {
      |trainData| > 0 && (newModel || temp.Some?)
    }

    /**
     * The inner loop of `run_epoch`, in one session starting from weights w:
     * up to `RESET_AFTER` training steps from tree `step` on, stopping early at
     * the end of the training data. `wrote` tells whether one of the steps
     * wrote a loss summary.
     */
    method TrainSession(ops: Ops<V>, w: Weights<V>, step: nat)
      returns (next: Weights<V>, end: nat, losses: seq<real>, wrote: bool)
      requires step <= |trainData|
      ensures end == Min(step + ResetAfter, |trainData|)
      ensures Trained(next, losses) == TrainTrees(ops, w, trainData[step..end], lr)
      ensures wrote <==> exists s :: step <= s < end && Summarised(s)
    {
      next, end, losses, wrote := w, step, [], false;
      var j := 0;
      while j < ResetAfter
        invariant 0 <= j <= ResetAfter && end == step + j
        invariant SessionProgress(ops, lr, w, trainData, step, end, next, losses, wrote)
      {
        if end >= |trainData| {
          break;
        }
        var tree := trainData[end];
        var logits := Inference(next, tree, false);
        var labels := KeptLabels(tree.labels);
        var loss := ops.loss(logits, labels);
        SessionProgressStep(ops, lr, w, trainData, step, end, next, losses, wrote);
        next := ops.optimize(next, tree, labels, lr);
        losses := losses + [loss];
        if Summarised(end) {
          wrote := true;
        }
        end := end + 1;
        j := j + 1;
      }
    }

    /**
     * One pass of the training loop of `run_epoch`: the session for batch
     * `batchIndex`, starting from a fresh initialisation or from the
     * temporary checkpoint, which it then overwrites. `ok` is false when
     * that checkpoint is missing.
     */
    method TrainBatch(ops: Ops<V>, newModel: bool, batchIndex: nat, step: nat)
      returns (ok: bool, end: nat, losses: seq<real>, wrote: bool)
      requires step == batchIndex * ResetAfter < |trainData|
      modifies this`temp, this`saved
      ensures ok <==> newModel || old(temp).Some?
      ensures !ok ==> temp == old(temp) && saved == old(saved)
      ensures ok ==>
        var run := TrainTrees(ops, if newModel then ops.initial(batchIndex) else old(temp).value, Batch(trainData, ResetAfter, batchIndex), lr);
        && end == Min(step + ResetAfter, |trainData|)
        && temp == Some(run.weights) && saved == old(saved) + [run.weights] && losses == run.losses
        && (wrote <==> exists s :: step <= s < end && Summarised(s))
    {
      var w: Weights<V>;
      if newModel {
        w := ops.initial(batchIndex);
      } else {
        if temp.None? {
          ok, end, losses, wrote := false, step, [], false;
          return;
        }
        w := temp.value;
      }
      BatchAt(trainData, ResetAfter, batchIndex);
      var next;
      next, end, losses, wrote := TrainSession(ops, w, step);
      temp := Some(next);
      saved := saved + [next];
      ok := true;
    }

    /**
     * The training loop of `run_epoch`: one session per batch, each starting
     * from a fresh initialisation or from the temporary checkpoint, and saving
     * the temporary checkpoint at its end. `ok` is false when a checkpoint to
     * restore is missing; `summaryWritten` tells whether `file_writer` was bound.
     */
    method TrainEpoch(ops: Ops<V>, newModel: bool) returns (ok: bool, lossHistory: seq<real>, summaryWritten: bool)
      modifies this`temp, this`saved
      ensures ok <==> |trainData| == 0 || newModel || old(temp).Some?
      ensures !ok || |trainData| == 0 ==> temp == old(temp) && saved == old(saved)
      ensures ok ==> (summaryWritten <==> |trainData| > 0)
      ensures ok && |trainData| == 0 ==> lossHistory == []
      ensures ok && |trainData| > 0 ==>
        var r := EpochRun(ops, lr, newModel, old(temp), Batches(trainData, ResetAfter));
        && saved == old(saved) + r.ckpts
        && temp == Some(r.ckpts[|r.ckpts| - 1])
        && lossHistory == r.losses
    {
      ghost var temp0, saved0 := temp, saved;
      var n: nat := |trainData|;
      var step: nat := 0;
      var batchIndex: nat := 0;
      summaryWritten := false;
      lossHistory := [];
      ghost var ckpts: seq<Weights<V>> := [];
      while step < n
        invariant EpochProgress(ops, lr, newModel, temp0, trainData, saved0, saved, temp, step, batchIndex, ckpts, lossHistory, summaryWritten)
        decreases n - step
      {
        ghost var temp1, saved1 := temp, saved;
        var batchOk, end, losses, wrote := TrainBatch(ops, newModel, batchIndex, step);
        if !batchOk {
          assert batchIndex == 0 && temp == temp0 && saved == saved0;
          ok := false;
          return;
        }
        EpochProgressStep(ops, lr, newModel, temp0, trainData, saved0, saved1, temp1, step, batchIndex, ckpts, lossHistory, summaryWritten,
          end, temp.value, losses, wrote);
        summaryWritten := summaryWritten || wrote;
        lossHistory := lossHistory + losses;
        step := end;
        ckpts := ckpts + [temp.value];
        batchIndex := batchIndex + 1;
      }
      if n > 0 {
        EpochProgressDone(ops, lr, newModel, temp0, trainData, saved0, saved, temp, step, batchIndex, ckpts, lossHistory, summaryWritten);
      }
      ok := true;
    }

    /**
     * `run_epoch`: trains on the training trees batch by batch, then predicts
     * the training and validation trees from the temporary checkpoint and
     * returns the accuracies, the per-tree training losses and the mean
     * validation loss. `ok` is false where the script raises: a missing
     * checkpoint to restore, an empty training set (the summary writer it
     * closes was never created) or a root label the confusion matrix cannot
     * index.
     */
    method RunEpoch(ops: Ops<V>, newModel: bool)
      returns (ok: bool, trainAcc: real, valAcc: real, lossHistory: seq<real>, valLoss: real)
      modifies this`temp, this`saved
      ensures !old(Completes(newModel)) ==> !ok && temp == old(temp) && saved == old(saved)
      ensures old(Completes(newModel)) ==>
        var r := EpochRun(ops, lr, newModel, old(temp), Batches(trainData, ResetAfter));
        && saved == old(saved) + r.ckpts
        && temp == Some(r.ckpts[|r.ckpts| - 1])
        && lossHistory == r.losses
        && |lossHistory| == |trainData|
        && |r.ckpts| == CeilDiv(|trainData|, ResetAfter)
      ensures old(Completes(newModel)) && !newModel ==>
        var whole := TrainTrees(ops, old(temp).value, trainData, lr);
        temp == Some(whole.weights) && lossHistory == whole.losses
      ensures old(Completes(newModel)) && newModel ==>
        var k := CeilDiv(|trainData|, ResetAfter) - 1;
        temp == Some(TrainTrees(ops, ops.initial(k), Batch(trainData, ResetAfter, k), lr).weights)
      ensures ok <==> old(Completes(newModel)) && RootLabelsInRange(trainData) && RootLabelsInRange(devData)
      ensures ok ==>
        && trainAcc == Accuracy(ops, temp.value, trainData)
        && valAcc == Accuracy(ops, temp.value, devData)
        && valLoss == ops.mean(RootLosses(ops, temp.value, devData))
    {
      ghost var temp0 := temp;
      trainAcc, valAcc, valLoss := 0.0, 0.0, 0.0;
      var trained, summaryWritten;
      trained, lossHistory, summaryWritten := TrainEpoch(ops, newModel);
      if !trained {
        ok := false;
        return;
      }
      if |trainData| > 0 {
        BatchesPartition(trainData, ResetAfter);
        var bs := Batches(trainData, ResetAfter);
        EpochRunLosses(ops, lr, newModel, temp0, bs);
        if newModel {
          NewModelRestartsEveryBatch(ops, lr, temp0, bs);
        } else {
          ContinuedEpochTrainsOnce(ops, lr, temp0.value, bs);
        }
      }

      var okTrain, trainPreds, _, _ := Predict(ops, trainData, temp, false);
      var okVal, valPreds, valLosses, _ := Predict(ops, devData, temp, true);
      if !okTrain || !okVal {
        ok := false;
        return;
      }
      trainAcc := ops.mean(Matches(trainPreds, RootLabels(trainData)));
      valAcc := ops.mean(Matches(valPreds, RootLabels(devData)));
      if !summaryWritten {
        // file_writer.close() on a name never bound
        ok := false;
        return;
      }
      ConfusionAccepts(temp.value, trainData);
      ConfusionAccepts(temp.value, devData);
      var _, okTrainConf := MakeConf(RootLabels(trainData), trainPreds);
      var _, okValConf := MakeConf(RootLabels(devData), valPreds);
      ok := okTrainConf && okValConf;
      valLoss := ops.mean(valLosses);
    }

    /**
     * `run_epoch` as the loop of `train` calls it after the epochs given by
     * the ghost parameters, with `new_model` in the first epoch only: when it
     * succeeds, the epoch extends the record of what every epoch reported
     * and of how its checkpoint was trained.
     */
    method RunEpochOfTrain(ops: Ops<V>, newModel: bool, ghost temp0: Option<Weights<V>>, ghost rates: seq<real>, ghost temps: seq<Weights<V>>,
      ghost histories: seq<seq<real>>, ghost epochLosses: seq<real>, ghost trainAccs: seq<real>, ghost valAccs: seq<real>,
      ghost valLosses: seq<real>)
      returns (ok: bool, trainAcc: real, valAcc: real, lossHistory: seq<real>, valLoss: real)
      requires |rates| == |temps| == |histories| == |epochLosses| == |trainAccs| == |valAccs| == |valLosses|
      requires newModel <==> temps == []
      requires temps == [] ==> temp == temp0
      requires temps != [] ==> temp == Some(temps[|temps| - 1])
      requires Reported(ops, trainData, devData, temps, histories, epochLosses, trainAccs, valAccs, valLosses)
      requires Chained(ops, trainData, temp0, rates, temps, histories)
      modifies this`temp, this`saved
      ensures ok <==> |trainData| > 0 && RootLabelsInRange(trainData) && RootLabelsInRange(devData)
      ensures ok ==> temp.Some?
      ensures ok ==> Reported(ops, trainData, devData, temps + [temp.value], histories + [lossHistory],
        epochLosses + [ops.mean(lossHistory)], trainAccs + [trainAcc], valAccs + [valAcc], valLosses + [valLoss])
      ensures ok ==> Chained(ops, trainData, temp0, rates + [lr], temps + [temp.value], histories + [lossHistory])
    {
      ok, trainAcc, valAcc, lossHistory, valLoss := RunEpoch(ops, newModel);
      if ok {
        ReportedSnoc(ops, trainData, devData, temps, histories, epochLosses, trainAccs, valAccs, valLosses,
          temp.value, lossHistory, ops.mean(lossHistory), trainAcc, valAcc, valLoss);
        ChainedSnoc(ops, trainData, temp0, rates, temps, histories, lr, temp.value, lossHistory);
      }
    }

    /**
     * One pass of the loop of `train`: run the epoch (with `new_model` in the
     * first one only), append what it reports, copy the temporary checkpoint
     * to the best one on a new least validation loss, anneal the learning
     * rate and update `stopped`.
     */
    method TrainLoopStep(ops: Ops<V>, epoch: nat, state: Control.State, stopped: int, ghost lr0: real, ghost temp0: Option<Weights<V>>,
      lossHistory: seq<real>, trainAccHistory: seq<real>, valAccHistory: seq<real>,
      ghost epochLosses: seq<real>, ghost valLosses: seq<real>, ghost histories: seq<seq<real>>, ghost temps: seq<Weights<V>>)
      returns (ok: bool, state': Control.State, stopped': int, lossHistory': seq<real>, trainAccHistory': seq<real>, valAccHistory': seq<real>,
        ghost epochLosses': seq<real>, ghost valLosses': seq<real>, ghost histories': seq<seq<real>>, ghost temps': seq<Weights<V>>)
      requires TrainProgress(ops, cfg, trainData, devData, lr, temp, best, epoch, state, stopped, lr0, temp0, lossHistory, trainAccHistory, valAccHistory, epochLosses, valLosses, histories, temps)
      modifies this`lr, this`temp, this`best, this`saved
      ensures ok <==> |trainData| > 0 && RootLabelsInRange(trainData) && RootLabelsInRange(devData)
      ensures ok ==> TrainProgress(ops, cfg, trainData, devData, lr, temp, best, epoch + 1, state', stopped', lr0, temp0, lossHistory', trainAccHistory', valAccHistory',
        epochLosses', valLosses', histories', temps')
    {
      state', stopped', lossHistory', trainAccHistory', valAccHistory' := state, stopped, lossHistory, trainAccHistory, valAccHistory;
      epochLosses', valLosses', histories', temps' := epochLosses, valLosses, histories, temps;
      ghost var rates := Control.Rates(cfg, lr0, epochLosses, valLosses);
      ghost var temp1 := temp;
      TrainProgressReady(ops, cfg, trainData, devData, lr, temp, best, epoch, state, stopped, lr0, temp0,
        lossHistory, trainAccHistory, valAccHistory, epochLosses, valLosses, histories, temps);
      var trainAcc, valAcc, epochHistory, valLoss;
      ok, trainAcc, valAcc, epochHistory, valLoss := RunEpochOfTrain(ops, epoch == 0, temp0, rates, temps, histories,
        epochLosses, trainAccHistory, valAccHistory, valLosses);
      if !ok {
        return;
      }
      lossHistory' := lossHistory + epochHistory;
      trainAccHistory' := trainAccHistory + [trainAcc];
      valAccHistory' := valAccHistory + [valAcc];
      epochLosses', valLosses' := epochLosses + [ops.mean(epochHistory)], valLosses + [valLoss];
      histories', temps' := histories + [epochHistory], temps + [temp.value];
      state', stopped' := EndEpoch(ops, epoch, state, stopped, epochHistory, valLoss, lr0, temp0, temp1,
        lossHistory, trainAccHistory, valAccHistory, trainAcc, valAcc, epochLosses, valLosses, histories, temps);
    }

    /**
     * The end of one pass of the loop of `train`, once the epoch has run and
     * its reports are appended: copy the temporary checkpoint to the best one
     * on a new least validation loss, anneal the learning rate and update
     * `stopped`.
     */
    method EndEpoch(ops: Ops<V>, epoch: nat, state: Control.State, stopped: int, epochHistory: seq<real>, valLoss: real,
      ghost lr0: real, ghost temp0: Option<Weights<V>>, ghost temp1: Option<Weights<V>>,
      ghost lossHistory: seq<real>, ghost trainAccHistory: seq<real>, ghost valAccHistory: seq<real>, ghost trainAcc: real, ghost valAcc: real,
      ghost epochLosses: seq<real>, ghost valLosses: seq<real>, ghost histories: seq<seq<real>>, ghost temps: seq<Weights<V>>)
      returns (state': Control.State, stopped': int)
      requires temp.Some?
      requires TrainProgress(ops, cfg, trainData, devData, lr, temp1, best, epoch, state, stopped, lr0, temp0,
        lossHistory, trainAccHistory, valAccHistory, epochLosses, valLosses, histories, temps)
      requires |trainData| > 0 && RootLabelsInRange(trainData) && RootLabelsInRange(devData)
      requires Reported(ops, trainData, devData, temps + [temp.value], histories + [epochHistory], epochLosses + [ops.mean(epochHistory)],
        trainAccHistory + [trainAcc], valAccHistory + [valAcc], valLosses + [valLoss])
      requires Chained(ops, trainData, temp0, Control.Rates(cfg, lr0, epochLosses, valLosses) + [lr], temps + [temp.value], histories + [epochHistory])
      modifies this`lr, this`best
      ensures TrainProgress(ops, cfg, trainData, devData, lr, temp, best, epoch + 1, state', stopped', lr0, temp0,
        lossHistory + epochHistory, trainAccHistory + [trainAcc], valAccHistory + [valAcc],
        epochLosses + [ops.mean(epochHistory)], valLosses + [valLoss], histories + [epochHistory], temps + [temp.value])
    {
      TrainProgressStep(ops, cfg, trainData, devData, lr, temp1, best, epoch, state, stopped, lr0, temp0,
        lossHistory, trainAccHistory, valAccHistory, epochLosses, valLosses, histories, temps,
        temp.value, trainAcc, valAcc, epochHistory, valLoss);
      ghost var best' := if Control.Below(valLoss, state.bestValLoss) then Some(temp.value) else best;
      if Control.Below(valLoss, state.bestValLoss) {
        best := temp;
      }
      assert best == best';
      state' := Control.EpochStep(cfg, state, epoch, ops.mean(epochHistory), valLoss);
      lr, stopped' := state'.lr, state'.stopped;
    }

    /**
     * The epoch loop of `train`, its outcome stated through the records
     * `Reported` and `Chained` that every epoch extends.
     */
    method TrainLoop(ops: Ops<V>)
      returns (ok: bool, lossHistory: seq<real>, trainAccHistory: seq<real>, valAccHistory: seq<real>, stopped: int,
               ghost epochLosses: seq<real>, ghost valLosses: seq<real>, ghost histories: seq<seq<real>>, ghost temps: seq<Weights<V>>)
      requires cfg.annealBy != 0.0
      modifies this`lr, this`temp, this`best, this`saved
      ensures ok <==> cfg.maxEpochs == 0 || (|trainData| > 0 && RootLabelsInRange(trainData) && RootLabelsInRange(devData))
      ensures ok ==> |epochLosses| == |valLosses| && TrainProgress(ops, cfg, trainData, devData, lr, temp, best, cfg.maxEpochs, Control.Run(cfg, old(lr), epochLosses, valLosses), stopped, old(lr), old(temp),
        lossHistory, trainAccHistory, valAccHistory, epochLosses, valLosses, histories, temps)
      ensures ok && cfg.maxEpochs == 0 ==> best == old(best)
    {
      ghost var lr0 := lr;
      ghost var temp0 := temp;
      ghost var best0 := best;
      lossHistory, trainAccHistory, valAccHistory := [], [], [];
      epochLosses, valLosses, histories, temps := [], [], [], [];
      var state := Control.Initial(lr);
      stopped := state.stopped;
      var epoch: nat := 0;
      while epoch < cfg.maxEpochs
        invariant epoch <= cfg.maxEpochs
        invariant epoch == 0 ==> best == best0
        invariant TrainProgress(ops, cfg, trainData, devData, lr, temp, best, epoch, state, stopped, lr0, temp0, lossHistory, trainAccHistory, valAccHistory,
          epochLosses, valLosses, histories, temps)
      {
        ok, state, stopped, lossHistory, trainAccHistory, valAccHistory, epochLosses, valLosses, histories, temps :=
          TrainLoopStep(ops, epoch, state, stopped, lr0, temp0, lossHistory, trainAccHistory, valAccHistory,
            epochLosses, valLosses, histories, temps);
        if !ok {
          return;
        }
        epoch := epoch + 1;
      }
      ok := true;
    }

    /**
     * `train`: `max_epochs` epochs, the first from a fresh initialisation and
     * every later one continuing from the temporary checkpoint. After each
     * epoch the learning rate is annealed when the mean training loss did not
     * drop enough, the temporary checkpoint is copied to the best one when
     * the validation loss is a new minimum, and `stopped` records an epoch
     * that lies more than `early_stopping` epochs after the best one (the loop
     * does not actually stop). The ghost outputs name, per epoch, the mean
     * training loss, the validation loss, the per-tree losses and the
     * checkpoint the epoch ended with.
     */
    method Train(ops: Ops<V>)
      returns (ok: bool, lossHistory: seq<real>, trainAccHistory: seq<real>, valAccHistory: seq<real>, stopped: int,
               ghost epochLosses: seq<real>, ghost valLosses: seq<real>, ghost histories: seq<seq<real>>, ghost temps: seq<Weights<V>>)
      requires cfg.annealBy != 0.0
      modifies this`lr, this`temp, this`best, this`saved
      ensures ok <==> cfg.maxEpochs == 0 || (|trainData| > 0 && RootLabelsInRange(trainData) && RootLabelsInRange(devData))
      ensures ok ==>
        && |epochLosses| == |valLosses| == |histories| == |temps| == |trainAccHistory| == |valAccHistory| == cfg.maxEpochs
        && lossHistory == Flatten(histories)
        && lr == Control.Run(cfg, old(lr), epochLosses, valLosses).lr
        && stopped == Control.Run(cfg, old(lr), epochLosses, valLosses).stopped
      ensures ok ==> forall e :: 0 <= e < cfg.maxEpochs ==>
        && epochLosses[e] == ops.mean(histories[e])
        && valLosses[e] == ops.mean(RootLosses(ops, temps[e], devData))
        && trainAccHistory[e] == Accuracy(ops, temps[e], trainData)
        && valAccHistory[e] == Accuracy(ops, temps[e], devData)
      ensures ok && cfg.maxEpochs == 0 ==> lr == old(lr) && temp == old(temp) && best == old(best) && lossHistory == []
      ensures ok && cfg.maxEpochs > 0 ==>
        && FirstEpoch(ops, trainData, old(temp), old(lr), temps[0], histories[0])
        && temp == Some(temps[cfg.maxEpochs - 1])
        && Control.Run(cfg, old(lr), epochLosses, valLosses).bestValEpoch < cfg.maxEpochs
        && best == Some(temps[Control.Run(cfg, old(lr), epochLosses, valLosses).bestValEpoch])
      ensures ok ==> forall e :: 0 < e < cfg.maxEpochs ==>
        var run := TrainTrees(ops, temps[e - 1], trainData, Control.Rates(cfg, old(lr), epochLosses, valLosses)[e]);
        temps[e] == run.weights && histories[e] == run.losses
    {
      ghost var lr0 := lr;
      ghost var temp0 := temp;
      ok, lossHistory, trainAccHistory, valAccHistory, stopped, epochLosses, valLosses, histories, temps := TrainLoop(ops);
      if ok {
        ReportedAt(ops, trainData, devData, temps, histories, epochLosses, trainAccHistory, valAccHistory, valLosses);
        ChainedAt(ops, trainData, temp0, Control.Rates(cfg, lr0, epochLosses, valLosses), temps, histories);
        if cfg.maxEpochs > 0 {
          Control.RatesArePrefixRates(cfg, lr0, epochLosses, valLosses);
          assert epochLosses[..0] == [] && valLosses[..0] == [];
        }
      }
    }
  }
}
