/**
 * The train/validate epoch loop with early stopping. The script runs it
 * twice, once per architecture, with identical bookkeeping; the network, the
 * loss and the optimizer are an oracle that supplies, for every epoch, the
 * per-batch numbers of the training pass and of the validation pass.
 */
module TrainingLoop {
  import opened Basics
  import opened Metrics
  import opened Batches
  import opened EarlyStopping

  /** The oracle's report for one epoch: its training batches, then its validation batches. */
  datatype EpochData = EpochData(train: seq<Batch>, val: seq<Batch>)

  /** `train_losses`, `train_accuracies`, `val_losses`, `val_accuracies`. */
  datatype History = History(
    trainLosses: seq<real>,
    trainAccuracies: seq<real>,
    valLosses: seq<real>,
    valAccuracies: seq<real>)

  /** Everything the loop carries from one epoch to the next. */
  datatype RunState = RunState(history: History, stopper: Stopper)

  /** How one pass through the loop body ends: on to the next epoch, `break`, or an exception. */
  datatype EpochEnd = Next | Break | Raise(error: Error)

  /** How the whole loop ends: after `epochs` iterations, by early stopping, or by an exception. */
  datatype Outcome = Completed | EarlyStopped(epoch: nat) | Crashed(epoch: nat, error: Error)

  /** Empty lists and `best_val_loss = inf`; `counter` is whatever it was before the loop. */
  function Initial(prior: Option<nat>): RunState {
    RunState(History([], [], [], []), Stopper(Infinity, prior))
  }

  /**
   * One pass through the loop body: accumulate the training pass (calling
   * `accuracy_fn` on each batch), normalise it, append its loss, then its accuracy; accumulate the validation pass;
   * update the early-stopping state on the summed validation loss; break if
   * the counter reached `patience`; otherwise normalise and append the
   * validation loss, then its accuracy.
   */
  function EpochStep(st: RunState, e: EpochData, patience: int): (r: (RunState, EpochEnd))
    ensures var h, h' := st.history, r.0.history;
      r.1 == Next ==>
        && |h'.trainLosses| == |h.trainLosses| + 1 && |h'.trainAccuracies| == |h.trainAccuracies| + 1
        && |h'.valLosses| == |h.valLosses| + 1 && |h'.valAccuracies| == |h.valAccuracies| + 1
    ensures var h, h' := st.history, r.0.history;
      r.1 == Break ==>
        && |h'.trainLosses| == |h.trainLosses| + 1 && |h'.trainAccuracies| == |h.trainAccuracies| + 1
        && h'.valLosses == h.valLosses && h'.valAccuracies == h.valAccuracies
        && r.0.stopper.counter.Some? && r.0.stopper.counter.value >= patience
    ensures r.1 == Next ==> r.0.stopper.counter.Some? && r.0.stopper.counter.value < patience
  {
    var h := st.history;
    match TrainSum(e.train)
    case Err(err) => (st, Raise(err))
    case Ok(tr) =>
    match Mean(tr.loss, |e.train|)
    case Err(err) => (st, Raise(err))
    case Ok(trainLoss) =>
      var h1 := h.(trainLosses := h.trainLosses + [trainLoss]);
      match Percent(tr.correct, tr.total)
      case Err(err) => (RunState(h1, st.stopper), Raise(err))
      case Ok(trainAccuracy) =>
        var h2 := h1.(trainAccuracies := h1.trainAccuracies + [trainAccuracy]);
        var va := Sum(e.val);
        match Observe(st.stopper, va.loss)
        case Err(err) => (RunState(h2, st.stopper), Raise(err))
        case Ok(s) =>
          if s.counter.value >= patience then (RunState(h2, s), Break)
          else
            match Mean(va.loss, |e.val|)
            case Err(err) => (RunState(h2, s), Raise(err))
            case Ok(valLoss) =>
              var h3 := h2.(valLosses := h2.valLosses + [valLoss]);
              match Percent(va.correct, va.total)
              case Err(err) => (RunState(h3, s), Raise(err))
              case Ok(valAccuracy) =>
                (RunState(h3.(valAccuracies := h3.valAccuracies + [valAccuracy]), s), Next)
  }

  /**
   * The loop from epoch `epoch` on, in state `st`: it ends at an epoch it
   * reached, and a run that completes adds one entry to each list per epoch.
   */
  function RunFrom(data: seq<EpochData>, patience: int, epoch: nat, st: RunState): (r: (RunState, Outcome))
    requires epoch <= |data|
    ensures r.1.EarlyStopped? ==> epoch <= r.1.epoch < |data|
    ensures r.1.Crashed? ==> epoch <= r.1.epoch < |data|
    ensures var h, h' := st.history, r.0.history;
      r.1.Completed? ==>
        && |h'.trainLosses| == |h.trainLosses| + |data| - epoch
        && |h'.trainAccuracies| == |h.trainAccuracies| + |data| - epoch
        && |h'.valLosses| == |h.valLosses| + |data| - epoch
        && |h'.valAccuracies| == |h.valAccuracies| + |data| - epoch
    decreases |data| - epoch
  {
    if epoch == |data| then (st, Completed)
    else
      var r := EpochStep(st, data[epoch], patience);
      match r.1
      case Next => RunFrom(data, patience, epoch + 1, r.0)
      case Break => (r.0, EarlyStopped(epoch))
      case Raise(err) => (r.0, Crashed(epoch, err))
  }

  /**
   * The whole loop over `|data|` epochs, entered with counter `prior`: a
   * completed run records every epoch, and an early stop or an exception
   * happens at one of the epochs.
   */
  function Run(data: seq<EpochData>, patience: int, prior: Option<nat>): (r: (RunState, Outcome))
    ensures r.1.Completed? ==> Lengths(r.0.history, |data|, |data|)
    ensures r.1.EarlyStopped? ==> r.1.epoch < |data|
    ensures r.1.Crashed? ==> r.1.epoch < |data|
  {
    RunFrom(data, patience, 0, Initial(prior))
  }

  /** The summed (unnormalised) validation loss of each epoch, the value early stopping compares. */
  function ValSums(data: seq<EpochData>): (sums: seq<real>)
    ensures |sums| == |data|
    ensures forall i :: 0 <= i < |data| ==> sums[i] == Sum(data[i].val).loss
  {
    seq(|data|, i requires 0 <= i < |data| => Sum(data[i].val).loss)
  }

  /** The early-stopping counter after epoch `k`: epochs since the best summed loss of epochs 0..k. */
  function CounterAfter(sums: seq<real>, k: nat): nat
    requires k < |sums|
  {
    EpochsSinceBest(sums[..k + 1])
  }

  /** Epoch `k` is the first whose counter reaches `patience`. */
  predicate FirstStop(sums: seq<real>, patience: int, k: nat) {
    && k < |sums|
    && CounterAfter(sums, k) >= patience
    && forall j :: 0 <= j < k ==> CounterAfter(sums, j) < patience
  }

  /** At most one epoch is the first to reach `patience`. */
  lemma FirstStopUnique(sums: seq<real>, patience: int, j: nat, k: nat)
    requires FirstStop(sums, patience, j) && FirstStop(sums, patience, k)
    ensures j == k
  {
  }

  /**
   * No division in the epoch can be by zero: both loaders are non-empty, every
   * training batch has an example for `accuracy_fn`, and the validation pass
   * has examples.
   */
  predicate Normalisable(e: EpochData) {
    |e.train| > 0 && NoEmptyBatch(e.train) && |e.val| > 0 && Sum(e.val).total > 0
  }

  /** The four per-epoch metrics the loop records. */
  datatype Metric = TrainLoss | TrainAccuracy | ValLoss | ValAccuracy

  /** The normalised value of metric `m` for epoch `e`, or the division by zero it raises. */
  function MetricOf(m: Metric, e: EpochData): Result<real> {
    match m
    case TrainLoss => Mean(Sum(e.train).loss, |e.train|)
    case TrainAccuracy => Percent(Sum(e.train).correct, Sum(e.train).total)
    case ValLoss => Mean(Sum(e.val).loss, |e.val|)
    case ValAccuracy => Percent(Sum(e.val).correct, Sum(e.val).total)
  }

  /** The list holds, at each position `i`, metric `m` of epoch `i`. */
  predicate Records(xs: seq<real>, m: Metric, data: seq<EpochData>) {
    |xs| <= |data| && forall i :: 0 <= i < |xs| ==> MetricOf(m, data[i]) == Ok(xs[i])
  }

  /** Appending the next epoch's metric keeps a list faithful. */
  lemma RecordsAppend(xs: seq<real>, m: Metric, data: seq<EpochData>, v: real)
    requires Records(xs, m, data) && |xs| < |data| && MetricOf(m, data[|xs|]) == Ok(v)
    ensures Records(xs + [v], m, data)
  {
    assert forall i :: 0 <= i < |xs| ==> (xs + [v])[i] == xs[i];
  }

  /** Each list holds, at position `i`, the normalised metric of epoch `i`. */
  predicate Faithful(h: History, data: seq<EpochData>) {
    && Records(h.trainLosses, TrainLoss, data)
    && Records(h.trainAccuracies, TrainAccuracy, data)
    && Records(h.valLosses, ValLoss, data)
    && Records(h.valAccuracies, ValAccuracy, data)
  }

  /** The two training lists hold `n` entries and the two validation lists `m`. */
  predicate Lengths(h: History, n: nat, m: nat) {
    |h.trainLosses| == n && |h.trainAccuracies| == n && |h.valLosses| == m && |h.valAccuracies| == m
  }

  /** Every recorded accuracy is a percentage. */
  predicate AccuraciesInRange(h: History) {
    && (forall i :: 0 <= i < |h.trainAccuracies| ==> 0.0 <= h.trainAccuracies[i] <= 100.0)
    && (forall i :: 0 <= i < |h.valAccuracies| ==> 0.0 <= h.valAccuracies[i] <= 100.0)
  }

  /** The state of the loop after `epoch` epochs that all ran their body to the end. */
  predicate Inv(data: seq<EpochData>, patience: int, prior: Option<nat>, epoch: nat, st: RunState) {
    && epoch <= |data|
    && Lengths(st.history, epoch, epoch)
    && Faithful(st.history, data)
    && st.stopper == Tracked(prior, ValSums(data)[..epoch])
    && forall k :: 0 <= k < epoch ==> CounterAfter(ValSums(data), k) < patience
  }

  /**
   * One epoch appends only faithful entries: both training entries, then, unless
   * it breaks, both validation entries, each list stopping where a division by
   * zero raises.
   */
  lemma EpochStepFaithful(data: seq<EpochData>, patience: int, epoch: nat, st: RunState)
    requires Faithful(st.history, data) && Lengths(st.history, epoch, epoch) && epoch < |data|
    ensures var r := EpochStep(st, data[epoch], patience); var h := r.0.history;
      && Faithful(h, data)
      && (r.1 == Next ==> Lengths(h, epoch + 1, epoch + 1))
      && (r.1 == Break ==> Lengths(h, epoch + 1, epoch))
      && (r.1.Raise? ==>
            && epoch <= |h.trainLosses| <= epoch + 1 && epoch <= |h.trainAccuracies| <= epoch + 1
            && epoch <= |h.valLosses| <= epoch + 1 && epoch <= |h.valAccuracies| <= epoch + 1)
  {
    var e := data[epoch];
    var h := st.history;
    var tr, va := Sum(e.train), Sum(e.val);
    if TrainSum(e.train).Ok? && |e.train| > 0 {
      RecordsAppend(h.trainLosses, TrainLoss, data, tr.loss / |e.train| as real);
      if tr.total > 0 {
        RecordsAppend(h.trainAccuracies, TrainAccuracy, data, 100.0 * tr.correct as real / tr.total as real);
        if |e.val| > 0 {
          RecordsAppend(h.valLosses, ValLoss, data, va.loss / |e.val| as real);
          if va.total > 0 {
            RecordsAppend(h.valAccuracies, ValAccuracy, data, 100.0 * va.correct as real / va.total as real);
          }
        }
      }
    }
  }

  /**
   * The early-stopping side of one epoch from a state satisfying Inv: the
   * state moves to the reference state of one more epoch, the epoch breaks
   * exactly when that counter reaches `patience`, and an exception is always
   * a division by zero.
   */
  lemma EpochStepStopper(data: seq<EpochData>, patience: int, prior: Option<nat>, epoch: nat, st: RunState)
    requires Inv(data, patience, prior, epoch, st) && epoch < |data|
    ensures var r := EpochStep(st, data[epoch], patience); var sums := ValSums(data);
      && (r.1.Raise? ==> r.1.error == ZeroDivision && !Normalisable(data[epoch]))
      && (!r.1.Raise? ==> r.0.stopper == Tracked(prior, sums[..epoch + 1]))
      && (r.1 == Next ==> CounterAfter(sums, epoch) < patience)
      && (r.1 == Break ==> CounterAfter(sums, epoch) >= patience)
  {
    var sums := ValSums(data);
    ObserveTracksFirstMin(prior, sums[..epoch], sums[epoch]);
    assert sums[..epoch] + [sums[epoch]] == sums[..epoch + 1];
    assert Observe(st.stopper, Sum(data[epoch].val).loss) == Ok(Tracked(prior, sums[..epoch + 1]));
  }

  /** One epoch from a state satisfying Inv either keeps Inv or ends the run as the source does. */
  lemma EpochStepKeeps(data: seq<EpochData>, patience: int, prior: Option<nat>, epoch: nat, st: RunState)
    requires Inv(data, patience, prior, epoch, st) && epoch < |data|
    ensures var r := EpochStep(st, data[epoch], patience);
      && Faithful(r.0.history, data)
      && (r.1.Raise? ==> r.1.error == ZeroDivision && !Normalisable(data[epoch]))
      && (r.1 != Next ==>
            && epoch <= |r.0.history.trainLosses| <= epoch + 1
            && epoch <= |r.0.history.trainAccuracies| <= epoch + 1
            && epoch <= |r.0.history.valLosses| <= epoch + 1
            && epoch <= |r.0.history.valAccuracies| <= epoch + 1)
      && (r.1 == Next ==> Inv(data, patience, prior, epoch + 1, r.0))
      && (r.1 == Break ==>
            && Lengths(r.0.history, epoch + 1, epoch)
            && r.0.stopper == Tracked(prior, ValSums(data)[..epoch + 1])
            && CounterAfter(ValSums(data), epoch) >= patience)
  {
    EpochStepFaithful(data, patience, epoch, st);
    EpochStepStopper(data, patience, prior, epoch, st);
  }

  /**
   * What a run entered at epoch `from` leaves behind, by outcome: the lists
   * are faithful; a completed run has every epoch recorded and no counter
   * reached `patience`; an early stop happens at the first epoch whose counter
   * reached it, with one validation entry fewer than training entries; an
   * exception is a division by zero on an epoch that has an empty loader, a
   * training batch without examples, or a validation pass without examples.
   */
  predicate Ends(data: seq<EpochData>, patience: int, prior: Option<nat>, from: nat, r: (RunState, Outcome)) {
    var h := r.0.history;
    var sums := ValSums(data);
    && Faithful(h, data)
    && (r.1.Completed? ==>
          && Lengths(h, |data|, |data|)
          && r.0.stopper == Tracked(prior, sums)
          && forall k :: 0 <= k < |data| ==> CounterAfter(sums, k) < patience)
    && (r.1.EarlyStopped? ==>
          && from <= r.1.epoch
          && FirstStop(sums, patience, r.1.epoch)
          && Lengths(h, r.1.epoch + 1, r.1.epoch)
          && r.0.stopper == Tracked(prior, sums[..r.1.epoch + 1]))
    && (r.1.Crashed? ==>
          && from <= r.1.epoch < |data|
          && r.1.error == ZeroDivision
          && !Normalisable(data[r.1.epoch])
          && (forall k :: 0 <= k < r.1.epoch ==> CounterAfter(sums, k) < patience)
          && r.1.epoch <= |h.trainLosses| <= r.1.epoch + 1
          && r.1.epoch <= |h.trainAccuracies| <= r.1.epoch + 1
          && r.1.epoch <= |h.valLosses| <= r.1.epoch + 1
          && r.1.epoch <= |h.valAccuracies| <= r.1.epoch + 1)
  }

  /** An epoch that breaks or raises ends the run as Ends describes. */
  lemma StopEnds(data: seq<EpochData>, patience: int, prior: Option<nat>, epoch: nat, st: RunState)
    requires Inv(data, patience, prior, epoch, st) && epoch < |data|
    requires EpochStep(st, data[epoch], patience).1 != Next
    ensures Ends(data, patience, prior, epoch, RunFrom(data, patience, epoch, st))
  {
    EpochStepKeeps(data, patience, prior, epoch, st);
  }

  /** An epoch that runs its body to the end hands the rest of the loop the state it produced. */
  lemma NextEpoch(data: seq<EpochData>, patience: int, epoch: nat, st: RunState)
    requires epoch < |data| && EpochStep(st, data[epoch], patience).1 == Next
    ensures RunFrom(data, patience, epoch, st) == RunFrom(data, patience, epoch + 1, EpochStep(st, data[epoch], patience).0)
  {
  }

  /** If the rest of the loop ends as Ends describes, so does the loop from one epoch earlier. */
  lemma NextEnds(data: seq<EpochData>, patience: int, prior: Option<nat>, epoch: nat, st: RunState)
    requires epoch < |data|
    requires EpochStep(st, data[epoch], patience).1 == Next
    requires Ends(data, patience, prior, epoch + 1,
                  RunFrom(data, patience, epoch + 1, EpochStep(st, data[epoch], patience).0))
    ensures Ends(data, patience, prior, epoch, RunFrom(data, patience, epoch, st))
  {
    NextEpoch(data, patience, epoch, st);
    EndsFromEarlier(data, patience, prior, epoch, RunFrom(data, patience, epoch + 1, EpochStep(st, data[epoch], patience).0));
  }

  /** Ends only weakens when the run is taken to start one epoch earlier. */
  lemma EndsFromEarlier(data: seq<EpochData>, patience: int, prior: Option<nat>, from: nat, r: (RunState, Outcome))
    requires Ends(data, patience, prior, from + 1, r)
    ensures Ends(data, patience, prior, from, r)
  {
  }

  /** What the loop ends with, from any state satisfying Inv. */
  lemma {:induction false} RunFromResult(data: seq<EpochData>, patience: int, prior: Option<nat>, epoch: nat, st: RunState)
    requires Inv(data, patience, prior, epoch, st)
    ensures Ends(data, patience, prior, epoch, RunFrom(data, patience, epoch, st))
    decreases |data| - epoch
  {
    if epoch < |data| {
      var r := EpochStep(st, data[epoch], patience);
      if r.1 == Next {
        EpochStepKeeps(data, patience, prior, epoch, st);
        RunFromResult(data, patience, prior, epoch + 1, r.0);
        NextEnds(data, patience, prior, epoch, st);
      } else {
        StopEnds(data, patience, prior, epoch, st);
      }
    } else {
      assert ValSums(data)[..epoch] == ValSums(data);
    }
  }

  /** Faithful entries are percentages where they are accuracies. */
  lemma FaithfulAccuraciesInRange(h: History, data: seq<EpochData>)
    requires Faithful(h, data)
    ensures AccuraciesInRange(h)
  {
    forall i | 0 <= i < |h.trainAccuracies| ensures 0.0 <= h.trainAccuracies[i] <= 100.0 {
      assert MetricOf(TrainAccuracy, data[i]) == Ok(h.trainAccuracies[i]);
    }
    forall i | 0 <= i < |h.valAccuracies| ensures 0.0 <= h.valAccuracies[i] <= 100.0 {
      assert MetricOf(ValAccuracy, data[i]) == Ok(h.valAccuracies[i]);
    }
  }

  /**
   * The shape of what any run leaves behind: every entry is its epoch's
   * normalised metric and every accuracy lies in [0, 100]; a completed run
   * holds `epochs` entries in each list; an early stop at epoch `k` holds
   * `k + 1` training entries but only `k` validation entries; an exception is
   * always a division by zero on an epoch that cannot be normalised, never
   * the unassigned `counter`.
   */
  lemma RunShape(data: seq<EpochData>, patience: int, prior: Option<nat>)
    ensures var r := Run(data, patience, prior); var h := r.0.history;
      && Faithful(h, data)
      && AccuraciesInRange(h)
      && (r.1.Completed? ==> Lengths(h, |data|, |data|))
      && (r.1.EarlyStopped? ==> r.1.epoch < |data| && Lengths(h, r.1.epoch + 1, r.1.epoch))
      && (r.1.Crashed? ==> r.1.epoch < |data| && r.1.error == ZeroDivision && !Normalisable(data[r.1.epoch]))
  {
    assert ValSums(data)[..0] == [];
    RunFromResult(data, patience, prior, 0, Initial(prior));
    FaithfulAccuraciesInRange(Run(data, patience, prior).0.history, data);
  }

  /**
   * When no epoch divides by zero, the loop stops early at epoch `k` exactly
   * when `k` is the first epoch whose counter reaches `patience`, and runs all
   * epochs exactly when no counter does. `best_val_loss` is then the lowest
   * summed validation loss seen, and `counter` the number of epochs since it.
   */
  lemma StopsWhenPatienceRunsOut(data: seq<EpochData>, patience: int, prior: Option<nat>)
    requires forall k :: 0 <= k < |data| ==> Normalisable(data[k])
    ensures var r := Run(data, patience, prior); var sums := ValSums(data);
      && !r.1.Crashed?
      && (r.1 == Completed <==> forall k :: 0 <= k < |data| ==> CounterAfter(sums, k) < patience)
      && (forall k: nat :: r.1 == EarlyStopped(k) <==> FirstStop(sums, patience, k))
      && (r.1.Completed? ==> r.0.stopper == Tracked(prior, sums))
      && (r.1.EarlyStopped? ==> r.0.stopper == Tracked(prior, sums[..r.1.epoch + 1]))
  {
    assert ValSums(data)[..0] == [];
    RunFromResult(data, patience, prior, 0, Initial(prior));
    var r := Run(data, patience, prior);
    var sums := ValSums(data);
    forall k: nat | FirstStop(sums, patience, k) ensures r.1 == EarlyStopped(k) {
      if r.1.EarlyStopped? {
        FirstStopUnique(sums, patience, r.1.epoch, k);
      }
    }
  }

  /**
   * If no epoch after the first has a strictly lower summed validation loss,
   * the loop stops at epoch `patience` with `patience + 1` training entries
   * and `patience` validation entries, and `best_val_loss` stays at epoch 0's sum.
   */
  lemma NoImprovementStopsAtPatience(data: seq<EpochData>, patience: int, prior: Option<nat>)
    requires forall k :: 0 <= k < |data| ==> Normalisable(data[k])
    requires 0 <= patience < |data|
    requires forall j :: 0 < j <= patience ==> Sum(data[0].val).loss <= Sum(data[j].val).loss
    ensures var r := Run(data, patience, prior);
      && r.1 == EarlyStopped(patience)
      && Lengths(r.0.history, patience + 1, patience)
      && r.0.stopper == Stopper(Finite(Sum(data[0].val).loss), Some(patience))
  {
    var sums := ValSums(data);
    forall j | 0 <= j <= patience ensures CounterAfter(sums, j) == j {
      var p := sums[..j + 1];
      assert IsFirstMin(p, 0);
      FirstMinUnique(p, 0, FirstMinIndex(p));
    }
    assert FirstStop(sums, patience, patience);
    StopsWhenPatienceRunsOut(data, patience, prior);
    RunShape(data, patience, prior);
    assert sums[..patience + 1][0] == sums[0];
  }

  /**
   * The configuration both copies of the loop run with (`epochs = 20`,
   * `patience = 10`): without a strict improvement after epoch 0 the loop
   * stops at epoch 10, leaving 11 training entries and 10 validation entries.
   */
  lemma ScriptConfigurationStopsAtEpochTen(data: seq<EpochData>, prior: Option<nat>)
    requires |data| == 20
    requires forall k :: 0 <= k < |data| ==> Normalisable(data[k])
    requires forall j :: 0 < j <= 10 ==> Sum(data[0].val).loss <= Sum(data[j].val).loss
    ensures var r := Run(data, 10, prior);
      r.1 == EarlyStopped(10) && Lengths(r.0.history, 11, 10)
  {
    NoImprovementStopsAtPatience(data, 10, prior);
  }

  /**
   * The counter left over from an earlier run (the second copy of the loop
   * inherits the first copy's) changes neither the outcome nor the recorded
   * lists: epoch 0 compares against `inf` and always resets it.
   */
  lemma PriorCounterIrrelevant(data: seq<EpochData>, patience: int, c1: Option<nat>, c2: Option<nat>)
    ensures Run(data, patience, c1).1 == Run(data, patience, c2).1
    ensures Run(data, patience, c1).0.history == Run(data, patience, c2).0.history
  {
    if |data| > 0 {
      var r1 := EpochStep(Initial(c1), data[0], patience);
      var r2 := EpochStep(Initial(c2), data[0], patience);
      assert r1.1 == r2.1 && r1.0.history == r2.0.history;
      if r1.1 == Next {
        assert r1.0 == r2.0;
        NextEpoch(data, patience, 0, Initial(c1));
        NextEpoch(data, patience, 0, Initial(c2));
      }
    }
  }

  /**
   * Early stopping compares summed validation losses, while `val_losses`
   * records them divided by the number of validation batches. When two
   * epochs have the same number of validation batches, as one loader always
   * yields, both comparisons order the epochs alike.
   */
  lemma SumsCompareLikeMeans(e1: EpochData, e2: EpochData)
    requires |e1.val| == |e2.val| > 0
    ensures MetricOf(ValLoss, e1).Ok? && MetricOf(ValLoss, e2).Ok?
    ensures Sum(e1.val).loss < Sum(e2.val).loss <==> MetricOf(ValLoss, e1).value < MetricOf(ValLoss, e2).value
  {
    var n := |e1.val| as real;
    var m1, m2 := MetricOf(ValLoss, e1).value, MetricOf(ValLoss, e2).value;
    assert m1 * n == Sum(e1.val).loss && m2 * n == Sum(e2.val).loss;
    if m1 < m2 {
      assert m1 * n < m2 * n;
    }
    if m2 <= m1 {
      assert m2 * n <= m1 * n;
    }
  }

  /**
   * The script's module-level names that the loop reads and rebinds. The
   * same names serve both copies of the loop, so `counter` carries over from
   * the first run into the second.
   */
  class Session {
    var trainLosses: seq<real>
    var trainAccuracies: seq<real>
    var valLosses: seq<real>
    var valAccuracies: seq<real>
    var bestValLoss: Best
    var counter: Option<nat>

    /** Before the first loop nothing is bound: in particular `counter` is not. */
    constructor ()
      ensures State() == Initial(None)
    {
      trainLosses, trainAccuracies, valLosses, valAccuracies := [], [], [], [];
      bestValLoss := Infinity;
      counter := None;
    }

    /** The loop's state as a value. */
    function State(): RunState
      reads this
    {
      RunState(History(trainLosses, trainAccuracies, valLosses, valAccuracies), Stopper(bestValLoss, counter))
    }

    /**
     * Reset the four lists and `best_val_loss` (but not `counter`), then run
     * `for epoch in range(epochs)` over the oracle's per-epoch batches.
     */
    method TrainAndValidate(epochs: nat, patience: int, data: seq<EpochData>) returns (outcome: Outcome)
      requires |data| == epochs
      modifies this
      ensures (State(), outcome) == Run(data, patience, old(counter))
    {
      trainLosses, valLosses, trainAccuracies, valAccuracies := [], [], [], [];
      bestValLoss := Infinity;
      var epoch := 0;
      while epoch < epochs
        invariant epoch <= epochs
        invariant RunFrom(data, patience, epoch, State()) == Run(data, patience, old(counter))
      {
        var end := RunEpoch(data[epoch], patience);
        if end == Break {
          return EarlyStopped(epoch);
        } else if end.Raise? {
          return Crashed(epoch, end.error);
        }
        epoch := epoch + 1;
      }
      outcome := Completed;
    }

    /** One pass through the loop body, in the order the script executes it. */
    method RunEpoch(e: EpochData, patience: int) returns (end: EpochEnd)
      modifies this
      ensures (State(), end) == EpochStep(old(State()), e, patience)
    {
      var train := AccumulateTraining(e.train);
      if train.Err? {
        return Raise(train.error);
      }
      var trainLoss, trainCorrect, trainTotal := train.value.loss, train.value.correct, train.value.total;
      if |e.train| == 0 {
        return Raise(ZeroDivision);
      }
      trainLoss := trainLoss / |e.train| as real;
      trainLosses := trainLosses + [trainLoss];
      if trainTotal == 0 {
        return Raise(ZeroDivision);
      }
      var trainAccuracy := 100.0 * trainCorrect as real / trainTotal as real;
      trainAccuracies := trainAccuracies + [trainAccuracy];

      var valLoss, valCorrect, valTotal := Accumulate(e.val);
      if Below(valLoss, bestValLoss) {
        bestValLoss := Finite(valLoss);
        counter := Some(0);
      } else if counter.None? {
        return Raise(UnboundCounter);
      } else {
        counter := Some(counter.value + 1);
      }
      if counter.value >= patience {
        return Break;
      }
      if |e.val| == 0 {
        return Raise(ZeroDivision);
      }
      valLoss := valLoss / |e.val| as real;
      valLosses := valLosses + [valLoss];
      if valTotal == 0 {
        return Raise(ZeroDivision);
      }
      var valAccuracy := 100.0 * valCorrect as real / valTotal as real;
      valAccuracies := valAccuracies + [valAccuracy];
      end := Next;
    }
  }
}
