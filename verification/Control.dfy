/**
 * The epoch-level bookkeeping of `train`: learning-rate annealing, tracking of
 * the best validation loss and early-stopping detection. Epoch and validation
 * losses are opaque reals; the state after a run of epochs is a left fold of
 * `EpochStep` over them.
 */
module Control {

  /** The hyperparameters of `Config`. */
  datatype Config = Config(
    embedSize: nat,
    labelSize: nat,
    earlyStopping: int,
    annealThreshold: real,
    annealBy: real,
    maxEpochs: nat,
    lr: real,
    l2: real)

  /** A loss, or `float('inf')`. */
  datatype Bound = Inf | Fin(value: real)

  /** `x < b`. */
  predicate Below(x: real, b: Bound)
  {
    b.Inf? || x < b.value
  }

  /**
   * `x > b * k`, with `inf * k` read as IEEE does: inf for k > 0, NaN for
   * k == 0 (every comparison with NaN is false), -inf for k < 0.
   */
  function Exceeds(x: real, b: Bound, k: real): (r: bool)
    ensures b.Inf? ==> (r <==> k < 0.0)
    ensures b.Fin? && k > 0.0 ==> (r <==> x / k > b.value)
  {
    match b
    case Inf => k < 0.0
    case Fin(v) => x > v * k
  }

  /** The variables `train` carries from one epoch to the next, with `self.config.lr`. */
  datatype State = State(lr: real, prevEpochLoss: Bound, bestValLoss: Bound, bestValEpoch: nat, stopped: int)

  /**
   * Before the first epoch: both losses are infinite, no epoch is best yet,
   * nothing stopped. So the first validation loss is always an improvement,
   * and for a non-negative threshold the first epoch never anneals.
   */
  function Initial(lr: real): (s: State)
    ensures s.lr == lr && s.bestValEpoch == 0 && s.stopped == -1
    ensures forall x :: Below(x, s.bestValLoss)
    ensures forall x, k :: k >= 0.0 ==> !Exceeds(x, s.prevEpochLoss, k)
  {
    State(lr, Inf, Inf, 0, -1)
  }

  /** The end of one epoch of `train`: anneal, remember the loss, promote, detect staleness. */
  function EpochStep(cfg: Config, s: State, epoch: nat, epochLoss: real, valLoss: real): (s': State)
    requires cfg.annealBy != 0.0
    ensures s'.prevEpochLoss == Fin(epochLoss)
    ensures cfg.annealBy >= 1.0 && s.lr > 0.0 ==> 0.0 < s'.lr <= s.lr
    ensures s'.bestValLoss.Fin? && s'.bestValLoss.value <= valLoss
    ensures s.bestValLoss.Fin? ==> s'.bestValLoss.value <= s.bestValLoss.value
    ensures s'.bestValEpoch == epoch || s'.bestValEpoch == s.bestValEpoch
    ensures s'.stopped == epoch || s'.stopped == s.stopped
    ensures epoch - s'.bestValEpoch > cfg.earlyStopping ==> s'.stopped == epoch
  {
    var lr := if Exceeds(epochLoss, s.prevEpochLoss, cfg.annealThreshold) then s.lr / cfg.annealBy else s.lr;
    assert cfg.annealBy >= 1.0 && s.lr > 0.0 ==> 0.0 < lr <= s.lr by {
      if cfg.annealBy >= 1.0 && s.lr > 0.0 {
        DivShrinks(s.lr, cfg.annealBy);
      }
    }
    var improved := Below(valLoss, s.bestValLoss);
    var bestLoss := if improved then Fin(valLoss) else s.bestValLoss;
    var bestEpoch := if improved then epoch else s.bestValEpoch;
    var stopped := if epoch - bestEpoch > cfg.earlyStopping then epoch else s.stopped;
    State(lr, Fin(epochLoss), bestLoss, bestEpoch, stopped)
  }

  /** The state after the epochs whose losses are given, starting from learning rate lr0. */
  function Run(cfg: Config, lr0: real, epochLosses: seq<real>, valLosses: seq<real>): (s: State)
    requires |epochLosses| == |valLosses| && cfg.annealBy != 0.0
    ensures epochLosses != [] ==> s.bestValEpoch < |epochLosses| && s.bestValLoss.Fin?
    ensures -1 <= s.stopped < |epochLosses|
  {
    if epochLosses == [] then Initial(lr0)
    else
      var n := |epochLosses| - 1;
      EpochStep(cfg, Run(cfg, lr0, epochLosses[..n], valLosses[..n]), n, epochLosses[n], valLosses[n])
  }

  // ---------------------------------------------------------------------
  // Independent descriptions of what the fold computes

  function Pow(b: real, n: nat): real
  {
    if n == 0 then 1.0 else Pow(b, n - 1) * b
  }

  /** lr divided by b, n times over. */
  function Annealed(lr: real, b: real, n: nat): real
    requires b != 0.0
  {
    if n == 0 then lr else Annealed(lr, b, n - 1) / b
  }

  /** The number of epochs e >= 1 whose loss exceeds the previous epoch's loss times the threshold. */
  function AnnealCount(losses: seq<real>, threshold: real): nat
  {
    if |losses| <= 1 then 0
    else
      var n := |losses| - 1;
      AnnealCount(losses[..n], threshold) + if losses[n] > losses[n - 1] * threshold then 1 else 0
  }

  /** k is the first index at which the sequence takes its minimum. */
  ghost predicate IsFirstMin(vs: seq<real>, k: nat)
  {
    k < |vs|
    && (forall j :: 0 <= j < |vs| ==> vs[k] <= vs[j])
    && (forall j :: 0 <= j < k ==> vs[k] < vs[j])
  }

  /** The first index of the smallest value. */
  function FirstMin(vs: seq<real>): (k: nat)
    requires |vs| > 0
    ensures IsFirstMin(vs, k)
  {
    if |vs| == 1 then 0
    else
      var k := FirstMin(vs[..|vs| - 1]);
      if vs[|vs| - 1] < vs[k] then |vs| - 1 else k
  }

  /** Epoch e is stale: more than `patience` epochs have passed since the best epoch among 0 .. e. */
  predicate Stale(valLosses: seq<real>, patience: int, e: nat)
    requires e < |valLosses|
  {
    e - FirstMin(valLosses[..e + 1]) > patience
  }

  /** The last stale epoch, or -1 when there is none. */
  function LastStale(valLosses: seq<real>, patience: int): (e: int)
    ensures -1 <= e < |valLosses|
    ensures e >= 0 ==> Stale(valLosses, patience, e)
    ensures forall j :: e < j < |valLosses| ==> !Stale(valLosses, patience, j)
  {
    if valLosses == [] then -1
    else
      var n := |valLosses| - 1;
      if Stale(valLosses, patience, n) then n
      else
        StaleOnPrefix(valLosses, patience, n);
        LastStale(valLosses[..n], patience)
  }

  /** Whether an epoch is stale depends only on the epochs up to it. */
  lemma StaleOnPrefix(valLosses: seq<real>, patience: int, n: nat)
    requires n <= |valLosses|
    ensures forall j :: 0 <= j < n ==> Stale(valLosses[..n], patience, j) == Stale(valLosses, patience, j)
  {
    forall j | 0 <= j < n
      ensures Stale(valLosses[..n], patience, j) == Stale(valLosses, patience, j)
    {
      assert valLosses[..n][..j + 1] == valLosses[..j + 1];
    }
  }

  /**
   * The learning rate each epoch trains with: `self.config.lr` as it stands
   * when the epoch starts, before that epoch's own annealing.
   */
  function Rates(cfg: Config, lr0: real, epochLosses: seq<real>, valLosses: seq<real>): (rs: seq<real>)
    requires |epochLosses| == |valLosses| && cfg.annealBy != 0.0
    ensures |rs| == |epochLosses|
  {
    if epochLosses == [] then []
    else
      var n := |epochLosses| - 1;
      Rates(cfg, lr0, epochLosses[..n], valLosses[..n]) + [Run(cfg, lr0, epochLosses[..n], valLosses[..n]).lr]
  }

  // ---------------------------------------------------------------------
  // What train guarantees

  lemma {:induction false} PrefixStep(cfg: Config, lr0: real, el: seq<real>, vl: seq<real>, k: nat)
    requires |el| == |vl| && cfg.annealBy != 0.0 && k < |el|
    ensures Run(cfg, lr0, el[..k + 1], vl[..k + 1]) == EpochStep(cfg, Run(cfg, lr0, el[..k], vl[..k]), k, el[k], vl[k])
  {
    assert el[..k + 1][..k] == el[..k];
    assert vl[..k + 1][..k] == vl[..k];
  }

  /** One more epoch: the fold takes one more step, and the new epoch trains with the rate the fold had reached. */
  lemma RunSnoc(cfg: Config, lr0: real, el: seq<real>, vl: seq<real>, x: real, y: real)
    requires |el| == |vl| && cfg.annealBy != 0.0
    ensures Run(cfg, lr0, el + [x], vl + [y]) == EpochStep(cfg, Run(cfg, lr0, el, vl), |el|, x, y)
    ensures Rates(cfg, lr0, el + [x], vl + [y]) == Rates(cfg, lr0, el, vl) + [Run(cfg, lr0, el, vl).lr]
  {
    assert (el + [x])[..|el|] == el;
    assert (vl + [y])[..|vl|] == vl;
  }

  /** Epoch e trains with the rate the fold reached after the first e epochs. */
  lemma {:induction false} RatesArePrefixRates(cfg: Config, lr0: real, el: seq<real>, vl: seq<real>)
    requires |el| == |vl| && cfg.annealBy != 0.0
    ensures forall e :: 0 <= e < |el| ==> Rates(cfg, lr0, el, vl)[e] == Run(cfg, lr0, el[..e], vl[..e]).lr
  {
    if el != [] {
      var n := |el| - 1;
      RatesArePrefixRates(cfg, lr0, el[..n], vl[..n]);
      forall e | 0 <= e < n
        ensures el[..n][..e] == el[..e] && vl[..n][..e] == vl[..e]
      {
      }
    }
  }

  /**
   * Epoch e trains with lr0 divided by `anneal_by` once for every annealing
   * among the epochs before it.
   */
  lemma RateSchedule(cfg: Config, lr0: real, el: seq<real>, vl: seq<real>, e: nat)
    requires |el| == |vl| && cfg.annealBy != 0.0 && cfg.annealThreshold >= 0.0 && e < |el|
    ensures Pow(cfg.annealBy, AnnealCount(el[..e], cfg.annealThreshold)) != 0.0
    ensures Rates(cfg, lr0, el, vl)[e] == lr0 / Pow(cfg.annealBy, AnnealCount(el[..e], cfg.annealThreshold))
  {
    RatesArePrefixRates(cfg, lr0, el, vl);
    LearningRateSchedule(cfg, lr0, el[..e], vl[..e]);
    AnnealedIsDivision(lr0, cfg.annealBy, AnnealCount(el[..e], cfg.annealThreshold));
  }

  /** After the first epoch, the previous epoch loss is the last epoch's loss. */
  lemma PrevIsLastLoss(cfg: Config, lr0: real, el: seq<real>, vl: seq<real>)
    requires |el| == |vl| && cfg.annealBy != 0.0
    ensures Run(cfg, lr0, el, vl).prevEpochLoss == if el == [] then Inf else Fin(el[|el| - 1])
  {
  }

  /**
   * The learning rate is divided by `anneal_by` at epoch k exactly when k > 0
   * and the epoch loss exceeds the previous epoch's loss times `anneal_threshold`;
   * the first epoch never anneals because the previous loss starts infinite.
   */
  lemma AnnealStep(cfg: Config, lr0: real, el: seq<real>, vl: seq<real>, k: nat)
    requires |el| == |vl| && cfg.annealBy != 0.0 && cfg.annealThreshold >= 0.0 && k < |el|
    ensures var before := Run(cfg, lr0, el[..k], vl[..k]).lr;
      Run(cfg, lr0, el[..k + 1], vl[..k + 1]).lr
        == if k > 0 && el[k] > el[k - 1] * cfg.annealThreshold then before / cfg.annealBy else before
  {
    AnnealLast(cfg, lr0, el[..k + 1], vl[..k + 1]);
    assert el[..k + 1][..k] == el[..k] && vl[..k + 1][..k] == vl[..k];
  }

  /** `AnnealStep` for the last epoch of the run. */
  lemma AnnealLast(cfg: Config, lr0: real, el: seq<real>, vl: seq<real>)
    requires |el| == |vl| && cfg.annealBy != 0.0 && cfg.annealThreshold >= 0.0 && el != []
    ensures var n := |el| - 1;
      var before := Run(cfg, lr0, el[..n], vl[..n]).lr;
      Run(cfg, lr0, el, vl).lr == if n > 0 && el[n] > el[n - 1] * cfg.annealThreshold then before / cfg.annealBy else before
  {
    var n := |el| - 1;
    PrevIsLastLoss(cfg, lr0, el[..n], vl[..n]);
  }

  /** The learning rate is lr0 divided by `anneal_by` once per annealing epoch. */
  lemma {:induction false} LearningRateSchedule(cfg: Config, lr0: real, el: seq<real>, vl: seq<real>)
    requires |el| == |vl| && cfg.annealBy != 0.0 && cfg.annealThreshold >= 0.0
    ensures Run(cfg, lr0, el, vl).lr == Annealed(lr0, cfg.annealBy, AnnealCount(el, cfg.annealThreshold))
  {
    if el != [] {
      var n := |el| - 1;
      var c := AnnealCount(el[..n], cfg.annealThreshold);
      LearningRateSchedule(cfg, lr0, el[..n], vl[..n]);
      AnnealLast(cfg, lr0, el, vl);
      AnnealCountStep(el, cfg.annealThreshold);
      if n > 0 && el[n] > el[n - 1] * cfg.annealThreshold {
        assert AnnealCount(el, cfg.annealThreshold) == c + 1;
        assert Annealed(lr0, cfg.annealBy, c + 1) == Annealed(lr0, cfg.annealBy, c) / cfg.annealBy;
      } else {
        assert AnnealCount(el, cfg.annealThreshold) == c;
      }
    }
  }

  /** Dividing n times by b is dividing once by the n-th power of b. */
  lemma {:induction false} AnnealedIsDivision(lr: real, b: real, n: nat)
    requires b != 0.0
    ensures Pow(b, n) != 0.0
    ensures Annealed(lr, b, n) == lr / Pow(b, n)
  {
    if n > 0 {
      AnnealedIsDivision(lr, b, n - 1);
      DivTwice(lr, Pow(b, n - 1), b);
    }
  }

  lemma AnnealCountStep(losses: seq<real>, threshold: real)
    requires |losses| > 0
    ensures var n := |losses| - 1;
      AnnealCount(losses, threshold)
        == AnnealCount(losses[..n], threshold) + if n > 0 && losses[n] > losses[n - 1] * threshold then 1 else 0
  {
    var n := |losses| - 1;
    if n > 0 {
      assert losses[..n][..n - 1] == losses[..n - 1];
    }
  }

  lemma DivTwice(x: real, p: real, b: real)
    requires p != 0.0 && b != 0.0
    ensures x / p / b == x / (p * b)
  {
  }

  lemma DivShrinks(x: real, b: real)
    requires x > 0.0 && b >= 1.0
    ensures 0.0 < x / b <= x
  {
    var q := x / b;
    assert q * b == x;
    assert q * b - q == q * (b - 1.0);
  }

  /** With anneal_by >= 1 the learning rate stays positive and never grows from one epoch to the next. */
  lemma {:induction false} LearningRateNeverGrows(cfg: Config, lr0: real, el: seq<real>, vl: seq<real>, k: nat)
    requires |el| == |vl| && cfg.annealBy >= 1.0 && lr0 > 0.0 && k <= |el|
    ensures 0.0 < Run(cfg, lr0, el, vl).lr <= Run(cfg, lr0, el[..k], vl[..k]).lr <= lr0
  {
    if k < |el| {
      var n := |el| - 1;
      LearningRateNeverGrows(cfg, lr0, el[..n], vl[..n], k);
      assert el[..n][..k] == el[..k] && vl[..n][..k] == vl[..k];
      var before := Run(cfg, lr0, el[..n], vl[..n]).lr;
      DivShrinks(before, cfg.annealBy);
    } else {
      assert el[..k] == el && vl[..k] == vl;
      if el != [] {
        var n := |el| - 1;
        LearningRateNeverGrows(cfg, lr0, el[..n], vl[..n], n);
        var before := Run(cfg, lr0, el[..n], vl[..n]).lr;
        DivShrinks(before, cfg.annealBy);
      }
    }
  }

  /**
   * The best validation loss is the smallest validation loss so far, and the
   * best epoch is the first epoch that reached it; before any epoch the best
   * loss is infinite and the best epoch 0.
   */
  lemma {:induction false} BestIsFirstMinimum(cfg: Config, lr0: real, el: seq<real>, vl: seq<real>)
    requires |el| == |vl| && cfg.annealBy != 0.0
    ensures var s := Run(cfg, lr0, el, vl);
      if vl == [] then s.bestValLoss == Inf && s.bestValEpoch == 0
      else s.bestValEpoch == FirstMin(vl) && s.bestValLoss == Fin(vl[FirstMin(vl)])
  {
    if vl != [] {
      var n := |vl| - 1;
      BestIsFirstMinimum(cfg, lr0, el[..n], vl[..n]);
      if n > 0 {
        var k := FirstMin(vl[..n]);
        assert vl[..n][k] == vl[k];
      }
    }
  }

  /**
   * Epoch k promotes the temporary checkpoint to best exactly when its
   * validation loss is strictly below that of every earlier epoch.
   */
  lemma PromotedExactlyOnNewMinimum(cfg: Config, lr0: real, el: seq<real>, vl: seq<real>, k: nat)
    requires |el| == |vl| && cfg.annealBy != 0.0 && k < |vl|
    ensures Below(vl[k], Run(cfg, lr0, el[..k], vl[..k]).bestValLoss)
      <==> forall j :: 0 <= j < k ==> vl[k] < vl[j]
  {
    BestIsFirstMinimum(cfg, lr0, el[..k], vl[..k]);
    if k > 0 {
      var m := FirstMin(vl[..k]);
      assert vl[..k][m] == vl[m];
      assert forall j :: 0 <= j < k ==> vl[..k][j] == vl[j];
    }
  }

  /** Promotion is the only change to the best loss and epoch, and the best loss never increases. */
  lemma BestChangesOnlyOnImprovement(cfg: Config, lr0: real, el: seq<real>, vl: seq<real>, k: nat)
    requires |el| == |vl| && cfg.annealBy != 0.0 && k < |vl|
    ensures var before := Run(cfg, lr0, el[..k], vl[..k]);
      var after := Run(cfg, lr0, el[..k + 1], vl[..k + 1]);
      if Below(vl[k], before.bestValLoss)
      then after.bestValLoss == Fin(vl[k]) && after.bestValEpoch == k
      else after.bestValLoss == before.bestValLoss && after.bestValEpoch == before.bestValEpoch
  {
    PrefixStep(cfg, lr0, el, vl, k);
  }

  /** The best epoch is never later than the last epoch run. */
  lemma BestEpochNotInFuture(cfg: Config, lr0: real, el: seq<real>, vl: seq<real>)
    requires |el| == |vl| && cfg.annealBy != 0.0 && |el| > 0
    ensures Run(cfg, lr0, el, vl).bestValEpoch < |el|
  {
    BestIsFirstMinimum(cfg, lr0, el, vl);
  }

  /**
   * `stopped` is the last epoch that came more than `early_stopping` epochs
   * after the best epoch so far, or -1; the loop does not break there.
   */
  lemma {:induction false} StoppedIsLastStale(cfg: Config, lr0: real, el: seq<real>, vl: seq<real>)
    requires |el| == |vl| && cfg.annealBy != 0.0
    ensures Run(cfg, lr0, el, vl).stopped == LastStale(vl, cfg.earlyStopping)
  {
    if vl != [] {
      var n := |vl| - 1;
      StoppedIsLastStale(cfg, lr0, el[..n], vl[..n]);
      BestIsFirstMinimum(cfg, lr0, el, vl);
      assert vl[..n + 1] == vl;
    }
  }

  /**
   * A negative `early_stopping` makes every epoch stale, so `stopped` ends
   * as the last epoch.
   */
  lemma NegativePatienceStopsEveryEpoch(cfg: Config, lr0: real, el: seq<real>, vl: seq<real>)
    requires |el| == |vl| && cfg.annealBy != 0.0 && cfg.earlyStopping < 0
    ensures forall e :: 0 <= e < |vl| ==> Stale(vl, cfg.earlyStopping, e)
    ensures vl != [] ==> Run(cfg, lr0, el, vl).stopped == |vl| - 1
  {
    StoppedIsLastStale(cfg, lr0, el, vl);
  }
}
