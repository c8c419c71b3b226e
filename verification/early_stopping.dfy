/**
 * The early-stopping state machine of the epoch loop: `best_val_loss`, which
 * starts at `float('inf')`, and `counter`, which the script never initialises.
 * Each epoch compares the summed (not yet averaged) validation loss against
 * `best_val_loss`.
 */
module EarlyStopping {
  import opened Basics

  /** `best_val_loss`: `float('inf')` until the first validation pass, then a finite sum. */
  datatype Best = Infinity | Finite(value: real)

  /** `x < best_val_loss`; every finite value is below infinity. */
  predicate Below(x: real, best: Best) {
    best.Infinity? || x < best.value
  }

  /** `best_val_loss` and `counter`; `None` while `counter` was never assigned. */
  datatype Stopper = Stopper(best: Best, counter: Option<nat>)

  /**
   * One epoch's update on the summed validation loss: a strictly lower sum
   * becomes the best and resets the counter; anything else increments the
   * counter, which raises NameError if it was never assigned.
   */
  function Observe(s: Stopper, valSum: real): (r: Result<Stopper>)
    ensures r.Err? <==> !Below(valSum, s.best) && s.counter.None?
    ensures r.Err? ==> r.error == UnboundCounter
    ensures r.Ok? ==> r.value.best.Finite? && r.value.best.value <= valSum && r.value.counter.Some?
    ensures r.Ok? && s.best.Finite? ==> r.value.best.value <= s.best.value
    ensures r.Ok? ==> (r.value.counter == Some(0) <==> Below(valSum, s.best))
    ensures r.Ok? && Below(valSum, s.best) ==> r.value.best == Finite(valSum)
    ensures r.Ok? && !Below(valSum, s.best) ==>
      r.value.best == s.best && r.value.counter == Some(s.counter.value + 1)
  {
    if Below(valSum, s.best) then Ok(Stopper(Finite(valSum), Some(0)))
    else match s.counter
      case None => Err(UnboundCounter)
      case Some(c) => Ok(Stopper(s.best, Some(c + 1)))
  }

  /**
   * Position `i` holds the lowest value of `sums`, and no earlier position
   * holds that value: the first epoch that reached the minimum.
   */
  predicate IsFirstMin(sums: seq<real>, i: int) {
    && 0 <= i < |sums|
    && (forall j :: 0 <= j < |sums| ==> sums[i] <= sums[j])
    && (forall j :: 0 <= j < i ==> sums[i] < sums[j])
  }

  /** There is at most one first minimum. */
  lemma FirstMinUnique(sums: seq<real>, i: int, k: int)
    requires IsFirstMin(sums, i) && IsFirstMin(sums, k)
    ensures i == k
  {
    assert sums[i] <= sums[k] && sums[k] <= sums[i];
  }

  /** The first epoch that reached the lowest summed validation loss. */
  function FirstMinIndex(sums: seq<real>): (i: nat)
    requires |sums| > 0
    ensures IsFirstMin(sums, i)
  {
    var n := |sums|;
    if n == 1 then 0
    else
      var k := FirstMinIndex(sums[..n - 1]);
      if sums[n - 1] < sums[k] then n - 1 else k
  }

  /** Epochs observed since the first epoch that reached the lowest summed loss. */
  function EpochsSinceBest(sums: seq<real>): (c: nat)
    requires |sums| > 0
    ensures c < |sums|
  {
    |sums| - 1 - FirstMinIndex(sums)
  }

  /**
   * Reference description of the early-stopping state after observing the
   * summed validation losses `sums` in order, starting from `best_val_loss =
   * inf` and a counter `prior` (never assigned, or left over from an earlier
   * run): the best is the lowest sum and the counter is the number of epochs
   * since the first epoch that reached it.
   */
  function Tracked(prior: Option<nat>, sums: seq<real>): Stopper {
    if sums == [] then Stopper(Infinity, prior)
    else Stopper(Finite(sums[FirstMinIndex(sums)]), Some(EpochsSinceBest(sums)))
  }

  /**
   * Observing one more sum moves the state from the reference description of
   * the earlier sums to that of the extended sequence, and never fails: the
   * first epoch always resets the counter, whatever `prior` was.
   */
  lemma ObserveTracksFirstMin(prior: Option<nat>, sums: seq<real>, x: real)
    ensures Observe(Tracked(prior, sums), x) == Ok(Tracked(prior, sums + [x]))
  {
    var s' := sums + [x];
    assert s'[..|s'| - 1] == sums;
  }

  /** `best_val_loss` never increases from one epoch to a later one. */
  lemma TrackedBestNonIncreasing(prior: Option<nat>, sums: seq<real>, k: nat)
    requires 0 < k <= |sums|
    ensures Tracked(prior, sums).best.value <= Tracked(prior, sums[..k]).best.value
  {
    var j := FirstMinIndex(sums[..k]);
    assert sums[..k][j] == sums[j];
  }
}
