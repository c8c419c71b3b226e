/**
 * `accuracy_fn` and the two normalisations the epoch loop and the test pass
 * perform: a percentage of correct predictions and a per-batch mean.
 * Python's `/` is true division, so both are divisions of reals that raise
 * ZeroDivisionError on a zero divisor.
 */
module Metrics {
  import opened Basics

  /** Number of positions at which the two vectors agree (`torch.eq(a, b).sum()`). */
  function CountEqual(a: seq<Label>, b: seq<Label>): (c: nat)
    requires |a| == |b|
    ensures c <= |a|
  {
    if |a| == 0 then 0
    else CountEqual(a[..|a| - 1], b[..|b| - 1]) + (if a[|a| - 1] == b[|b| - 1] then 1 else 0)
  }

  /** Every position agrees exactly when the vectors are equal. */
  lemma {:induction false} CountEqualAll(a: seq<Label>, b: seq<Label>)
    requires |a| == |b|
    ensures CountEqual(a, b) == |a| <==> a == b
  {
    if |a| > 0 {
      var n := |a|;
      CountEqualAll(a[..n - 1], b[..n - 1]);
      assert a == a[..n - 1] + [a[n - 1]];
      assert b == b[..n - 1] + [b[n - 1]];
    }
  }

  /** No position agrees exactly when the vectors differ everywhere. */
  lemma {:induction false} CountEqualNone(a: seq<Label>, b: seq<Label>)
    requires |a| == |b|
    ensures CountEqual(a, b) == 0 <==> forall i :: 0 <= i < |a| ==> a[i] != b[i]
  {
    if |a| > 0 {
      var n := |a|;
      CountEqualNone(a[..n - 1], b[..n - 1]);
      assert forall i :: 0 <= i < n - 1 ==> a[..n - 1][i] == a[i] && b[..n - 1][i] == b[i];
    }
  }

  /** Counting agreement over two concatenated pairs of vectors adds up. */
  lemma {:induction false} CountEqualConcat(a: seq<Label>, b: seq<Label>, a': seq<Label>, b': seq<Label>)
    requires |a| == |b| && |a'| == |b'|
    ensures CountEqual(a + a', b + b') == CountEqual(a, b) + CountEqual(a', b')
    decreases |a'|
  {
    if |a'| > 0 {
      var n := |a'|;
      CountEqualConcat(a, b, a'[..n - 1], b'[..n - 1]);
      assert (a + a')[..|a + a'| - 1] == a + a'[..n - 1];
      assert (b + b')[..|b + b'| - 1] == b + b'[..n - 1];
    } else {
      assert a + a' == a && b + b' == b;
    }
  }

  /** `100 * correct / total`, as the loop computes train and validation accuracy. */
  function Percent(correct: nat, total: nat): (r: Result<real>)
    ensures r.Err? <==> total == 0
    ensures r.Err? ==> r.error == ZeroDivision
    ensures r.Ok? ==> r.value * total as real == 100.0 * correct as real
    ensures r.Ok? && correct <= total ==> 0.0 <= r.value <= 100.0
    ensures r == Ok(100.0) <==> total > 0 && correct == total
  {
    if total == 0 then Err(ZeroDivision)
    else
      var p := 100.0 * correct as real / total as real;
      ScaledRatio(100.0 * correct as real, total as real, p);
      Ok(p)
  }

  /** The facts about `p = x / t` that Percent needs, with the nonlinear steps spelled out. */
  lemma ScaledRatio(x: real, t: real, p: real)
    requires t >= 1.0 && p == x / t
    ensures p * t == x
    ensures 0.0 <= x ==> 0.0 <= p
    ensures x <= 100.0 * t ==> p <= 100.0
    ensures p == 100.0 <==> x == 100.0 * t
  {
    assert p * t == x;
    if p > 100.0 {
      assert p * t > 100.0 * t;
    }
    if p < 0.0 {
      assert p * t < 0.0;
    }
  }

  /** `sum / count`, as the loop divides a summed loss by the number of batches. */
  function Mean(sum: real, count: nat): (r: Result<real>)
    ensures r.Err? <==> count == 0
    ensures r.Err? ==> r.error == ZeroDivision
    ensures r.Ok? ==> r.value * count as real == sum
  {
    if count == 0 then Err(ZeroDivision) else Ok(sum / count as real)
  }

  /**
   * `accuracy_fn(y_true, y_pred)`: the share of agreeing positions, in percent.
   * An empty prediction vector divides by zero.
   */
  function Accuracy(yTrue: seq<Label>, yPred: seq<Label>): (r: Result<real>)
    requires |yTrue| == |yPred|
    ensures r.Err? <==> |yPred| == 0
    ensures r.Err? ==> r.error == ZeroDivision
    ensures r.Ok? ==> 0.0 <= r.value <= 100.0
    ensures r.Ok? ==> r.value * |yPred| as real == 100.0 * CountEqual(yTrue, yPred) as real
  {
    Percent(CountEqual(yTrue, yPred), |yPred|)
  }

  /** accuracy_fn reports 100 exactly when the prediction matches the truth everywhere. */
  lemma AccuracyPerfect(yTrue: seq<Label>, yPred: seq<Label>)
    requires |yTrue| == |yPred| > 0
    ensures Accuracy(yTrue, yPred) == Ok(100.0) <==> yTrue == yPred
  {
    CountEqualAll(yTrue, yPred);
  }

  /** accuracy_fn reports 0 exactly when the prediction is wrong everywhere. */
  lemma AccuracyZero(yTrue: seq<Label>, yPred: seq<Label>)
    requires |yTrue| == |yPred| > 0
    ensures Accuracy(yTrue, yPred) == Ok(0.0) <==> forall i :: 0 <= i < |yPred| ==> yTrue[i] != yPred[i]
  {
    CountEqualNone(yTrue, yPred);
  }
}
