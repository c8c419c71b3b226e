/**
 * What the network, the loss function and the 0.5 threshold report for one
 * batch, and the running totals the training, validation and test passes keep
 * over a loader's batches.
 */
module Batches {
  import opened Basics
  import opened Metrics

  /**
   * One batch as the opaque network sees it: `loss_fn(y_logits, y).item()`,
   * `(y_pred == y).sum().item()` and `len(y)`.
   */
  datatype BatchStats = BatchStats(loss: real, correct: nat, size: nat)

  /** A batch cannot have more correct predictions than examples. */
  type Batch = b: BatchStats | b.correct <= b.size witness BatchStats(0.0, 0, 0)

  /** The three accumulators of a pass: summed loss, correct predictions, examples seen. */
  datatype Totals = Totals(loss: real, correct: nat, total: nat)

  /** The accumulators after a pass over `bs`, batch by batch, from zero. */
  function Sum(bs: seq<Batch>): (t: Totals)
    ensures t.correct <= t.total
  {
    if bs == [] then Totals(0.0, 0, 0)
    else
      var p := Sum(bs[..|bs| - 1]);
      var b := bs[|bs| - 1];
      Totals(p.loss + b.loss, p.correct + b.correct, p.total + b.size)
  }

  /**
   * The accumulation loop of one pass (`+= loss.item()`, `+= (y_pred == y).sum().item()`,
   * `+= len(y)`), without the normalisation that follows it.
   */
  method Accumulate(bs: seq<Batch>) returns (loss: real, correct: nat, total: nat)
    ensures Totals(loss, correct, total) == Sum(bs)
    ensures correct <= total
  {
    loss, correct, total := 0.0, 0, 0;
    var i := 0;
    while i < |bs|
      invariant 0 <= i <= |bs|
      invariant Totals(loss, correct, total) == Sum(bs[..i])
    {
      var b := bs[i];
      loss := loss + b.loss;
      correct := correct + b.correct;
      total := total + b.size;
      i := i + 1;
      assert bs[..i][..i - 1] == bs[..i - 1];
    }
    assert bs[..i] == bs;
  }

  /** Every batch holds at least one example. */
  predicate NoEmptyBatch(bs: seq<Batch>) {
    forall i :: 0 <= i < |bs| ==> bs[i].size > 0
  }

  /**
   * The accumulators of the training pass. Unlike the validation and test
   * passes, it calls `accuracy_fn` on every batch before accumulating it, and
   * that call divides by the batch's length: the first batch without examples
   * raises ZeroDivision, whatever the batches after it hold.
   */
  function TrainSum(bs: seq<Batch>): (r: Result<Totals>)
    ensures r.Err? <==> !NoEmptyBatch(bs)
    ensures r.Err? ==> r.error == ZeroDivision
    ensures r.Ok? ==> r.value == Sum(bs)
    ensures r.Ok? && |bs| > 0 ==> r.value.total > 0
  {
    if bs == [] then Ok(Totals(0.0, 0, 0))
    else
      var p := bs[..|bs| - 1];
      var b := bs[|bs| - 1];
      match TrainSum(p)
      case Err(err) => Err(err)
      case Ok(t) =>
        match Percent(b.correct, b.size)
        case Err(err) => Err(err)
        case Ok(_) => Ok(Totals(t.loss + b.loss, t.correct + b.correct, t.total + b.size))
  }

  /**
   * The training pass's batch loop: `accuracy_fn` on the batch (its value is
   * never used), then the three accumulators.
   */
  method AccumulateTraining(bs: seq<Batch>) returns (r: Result<Totals>)
    ensures r == TrainSum(bs)
  {
    var loss: real, correct: nat, total: nat := 0.0, 0, 0;
    var i := 0;
    while i < |bs|
      invariant 0 <= i <= |bs|
      invariant TrainSum(bs[..i]) == Ok(Totals(loss, correct, total))
    {
      var b := bs[i];
      var acc := Percent(b.correct, b.size);
      if acc.Err? {
        assert !NoEmptyBatch(bs);
        return Err(acc.error);
      }
      loss := loss + b.loss;
      correct := correct + b.correct;
      total := total + b.size;
      i := i + 1;
      assert bs[..i][..i - 1] == bs[..i - 1];
    }
    assert bs[..i] == bs;
    r := Ok(Totals(loss, correct, total));
  }
}
