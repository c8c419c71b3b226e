/**
 * The final pass over the test loader: the same accumulators as a validation
 * pass, plus the two trackers that collect every prediction and every true
 * label, batch by batch, for the confusion matrix.
 */
module TestPass {
  import opened Basics
  import opened Metrics
  import opened Batches

  /** One test batch: its loss, its thresholded predictions and its true labels. */
  datatype TestBatch = TestBatch(loss: real, preds: seq<Label>, labels: seq<Label>)

  /** A batch has one prediction per label. */
  type LabelledBatch = b: TestBatch | |b.preds| == |b.labels| witness TestBatch(0.0, [], [])

  /** The batch as the accumulators see it: loss, `(y_pred == y).sum()`, `len(y)`. */
  function Stats(b: LabelledBatch): Batch {
    BatchStats(b.loss, CountEqual(b.labels, b.preds), |b.labels|)
  }

  /** The accumulators' view of every batch, in loader order. */
  function AllStats(bs: seq<LabelledBatch>): (r: seq<Batch>)
    ensures |r| == |bs|
    ensures forall i :: 0 <= i < |bs| ==> r[i] == Stats(bs[i])
  {
    seq(|bs|, i requires 0 <= i < |bs| => Stats(bs[i]))
  }

  /**
   * `y_true_tracker`: every batch's true labels, concatenated in loader order;
   * it has one entry per example the pass counts in `test_total`.
   */
  function Truths(bs: seq<LabelledBatch>): (t: seq<Label>)
    ensures |t| == Sum(AllStats(bs)).total
  {
    if bs == [] then []
    else
      assert AllStats(bs)[..|bs| - 1] == AllStats(bs[..|bs| - 1]);
      Truths(bs[..|bs| - 1]) + bs[|bs| - 1].labels
  }

  /**
   * `y_pred_tracker`: every batch's predictions, concatenated in loader order;
   * it stays aligned with `y_true_tracker`, entry for entry.
   */
  function Predictions(bs: seq<LabelledBatch>): (p: seq<Label>)
    ensures |p| == |Truths(bs)|
  {
    if bs == [] then [] else Predictions(bs[..|bs| - 1]) + bs[|bs| - 1].preds
  }

  /**
   * The two trackers are aligned, have one entry per test example, and agree
   * in exactly as many positions as the accumulated correct count.
   */
  lemma {:induction false} TrackersMatchTotals(bs: seq<LabelledBatch>)
    ensures |Predictions(bs)| == |Truths(bs)| == Sum(AllStats(bs)).total
    ensures CountEqual(Truths(bs), Predictions(bs)) == Sum(AllStats(bs)).correct
  {
    if bs != [] {
      var n := |bs|;
      var p := bs[..n - 1];
      TrackersMatchTotals(p);
      assert AllStats(bs)[..n - 1] == AllStats(p);
      CountEqualConcat(Truths(p), Predictions(p), bs[n - 1].labels, bs[n - 1].preds);
    }
  }

  /** Test loss, test accuracy and the two trackers. */
  datatype TestReport = TestReport(loss: real, accuracy: real, yPred: seq<Label>, yTrue: seq<Label>)

  /**
   * The test pass: accumulate loss, correct and total, extend both trackers
   * batch by batch, then normalise. An empty loader or a pass without
   * examples divides by zero.
   */
  method Evaluate(bs: seq<LabelledBatch>) returns (r: Result<TestReport>)
    ensures r.Err? <==> |bs| == 0 || Sum(AllStats(bs)).total == 0
    ensures r.Err? ==> r.error == ZeroDivision
    ensures r.Ok? ==> r.value.yPred == Predictions(bs) && r.value.yTrue == Truths(bs)
    ensures r.Ok? ==> |r.value.yPred| == |r.value.yTrue| == Sum(AllStats(bs)).total
    ensures r.Ok? ==> Mean(Sum(AllStats(bs)).loss, |bs|) == Ok(r.value.loss)
    ensures r.Ok? ==> Accuracy(r.value.yTrue, r.value.yPred) == Ok(r.value.accuracy)
  {
    var testLoss: real, testCorrect: nat, testTotal: nat := 0.0, 0, 0;
    var yPredTracker: seq<Label>, yTrueTracker: seq<Label> := [], [];
    var i := 0;
    while i < |bs|
      invariant 0 <= i <= |bs|
      invariant Totals(testLoss, testCorrect, testTotal) == Sum(AllStats(bs[..i]))
      invariant yPredTracker == Predictions(bs[..i]) && yTrueTracker == Truths(bs[..i])
    {
      var b := bs[i];
      testLoss := testLoss + b.loss;
      testCorrect := testCorrect + CountEqual(b.labels, b.preds);
      testTotal := testTotal + |b.labels|;
      yPredTracker := yPredTracker + b.preds;
      yTrueTracker := yTrueTracker + b.labels;
      i := i + 1;
      assert bs[..i][..i - 1] == bs[..i - 1];
      assert AllStats(bs[..i])[..i - 1] == AllStats(bs[..i - 1]);
    }
    assert bs[..i] == bs;
    TrackersMatchTotals(bs);
    if |bs| == 0 {
      return Err(ZeroDivision);
    }
    testLoss := testLoss / |bs| as real;
    if testTotal == 0 {
      return Err(ZeroDivision);
    }
    var testAccuracy := 100.0 * testCorrect as real / testTotal as real;
    r := Ok(TestReport(testLoss, testAccuracy, yPredTracker, yTrueTracker));
  }
}
