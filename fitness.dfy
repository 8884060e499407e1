/**
 * The statistics the training loop folds over one generation's fitnesses, in
 * population order: the minimum, the sum and the maximum, with the sentinels
 * 1000000 and -1000000 they start from, and which genome the strict `>`
 * picks as the best.
 */
module Fitness {
  import opened Wrappers

  /** The starting value of `min_fit`. */
  const MinSentinel: real := 1000000.0
  /** The starting value of `max_fit`. */
  const MaxSentinel: real := -1000000.0

  /** The accumulators of the loop over the population: `min_fit`, the
      running sum kept in `avg_fit`, `max_fit`, and which genome
      `max_neural_net` was copied from. */
  datatype Tally = Tally(minFit: real, sumFit: real, maxFit: real, best: Option<nat>)

  /** The accumulators before the first genome. */
  const Start := Tally(MinSentinel, 0.0, MaxSentinel, None)

  /** One iteration for genome `i` of fitness `x`: `min` into the minimum,
      add to the sum, and replace the maximum and the best genome only on a
      strictly greater fitness. */
  function Step(t: Tally, i: nat, x: real): Tally
  {
    Tally(
      if x < t.minFit then x else t.minFit,
      t.sumFit + x,
      if x > t.maxFit then x else t.maxFit,
      if x > t.maxFit then Some(i) else t.best)
  }

  /** The accumulators after the loop has seen the fitnesses `fits`, in order. */
  function Fold(fits: seq<real>): (t: Tally)
    ensures t.best.Some? ==> t.best.value < |fits|
  {
    if fits == [] then Start else Step(Fold(fits[..|fits| - 1]), |fits| - 1, fits[|fits| - 1])
  }

  /** The sum of the fitnesses, added up from the first one. */
  function Sum(fits: seq<real>): real
  {
    if fits == [] then 0.0 else fits[0] + Sum(fits[1..])
  }

  /** One more fitness is one more step of the loop. */
  lemma FoldAppend(fits: seq<real>, x: real)
    ensures Fold(fits + [x]) == Step(Fold(fits), |fits|, x)
  {
    assert (fits + [x])[..|fits|] == fits;
  }

  /** Adding a last fitness to the sum. */
  lemma {:induction false} SumAppend(fits: seq<real>, x: real)
    ensures Sum(fits + [x]) == Sum(fits) + x
  {
    if fits != [] {
      assert (fits + [x])[1..] == fits[1..] + [x];
      SumAppend(fits[1..], x);
    }
  }

  /** The running sum is the sum of all fitnesses. */
  lemma {:induction false} FoldSumIsSum(fits: seq<real>)
    ensures Fold(fits).sumFit == Sum(fits)
  {
    if fits != [] {
      var init := fits[..|fits| - 1];
      FoldSumIsSum(init);
      SumAppend(init, fits[|fits| - 1]);
      assert init + [fits[|fits| - 1]] == fits;
    }
  }

  /** `min_fit` is the minimum of 1000000 and every fitness. */
  lemma {:induction false} FoldMinIsMinimum(fits: seq<real>)
    ensures Fold(fits).minFit <= MinSentinel
    ensures forall k :: 0 <= k < |fits| ==> Fold(fits).minFit <= fits[k]
    ensures Fold(fits).minFit == MinSentinel || exists k :: 0 <= k < |fits| && fits[k] == Fold(fits).minFit
  {
    if fits != [] {
      var init := fits[..|fits| - 1];
      FoldMinIsMinimum(init);
      assert forall k :: 0 <= k < |init| ==> fits[k] == init[k];
    }
  }

  /** `max_fit` is the maximum of -1000000 and every fitness. */
  lemma {:induction false} FoldMaxIsMaximum(fits: seq<real>)
    ensures Fold(fits).maxFit >= MaxSentinel
    ensures forall k :: 0 <= k < |fits| ==> fits[k] <= Fold(fits).maxFit
    ensures Fold(fits).maxFit == MaxSentinel || exists k :: 0 <= k < |fits| && fits[k] == Fold(fits).maxFit
  {
    if fits != [] {
      var init := fits[..|fits| - 1];
      FoldMaxIsMaximum(init);
      assert forall k :: 0 <= k < |init| ==> fits[k] == init[k];
    }
  }

  /** The best genome is the first one, in population order, whose fitness
      equals `max_fit`; there is none exactly when no fitness exceeds
      -1000000. */
  lemma {:induction false} FoldBestIsFirstMaximum(fits: seq<real>)
    ensures Fold(fits).best.None? <==> forall k :: 0 <= k < |fits| ==> fits[k] <= MaxSentinel
    ensures Fold(fits).best.Some? ==>
      var i := Fold(fits).best.value;
      && i < |fits|
      && fits[i] == Fold(fits).maxFit
      && fits[i] > MaxSentinel
      && (forall j :: 0 <= j < i ==> fits[j] < fits[i])
      && (forall j :: i < j < |fits| ==> fits[j] <= fits[i])
  {
    if fits != [] {
      var init := fits[..|fits| - 1];
      FoldBestIsFirstMaximum(init);
      FoldMaxIsMaximum(init);
      assert forall k :: 0 <= k < |init| ==> fits[k] == init[k];
    }
  }

  /** With every fitness between `lo` and `hi`, the sum lies between
      n * lo and n * hi. */
  lemma {:induction false} SumBetween(fits: seq<real>, lo: real, hi: real)
    requires forall k :: 0 <= k < |fits| ==> lo <= fits[k] <= hi
    ensures |fits| as real * lo <= Sum(fits) <= |fits| as real * hi
  {
    if fits != [] {
      var rest := fits[1..];
      assert forall k :: 0 <= k < |rest| ==> rest[k] == fits[k + 1];
      SumBetween(rest, lo, hi);
      assert |fits| as real * lo == |rest| as real * lo + lo;
      assert |fits| as real * hi == |rest| as real * hi + hi;
    }
  }

  /** The mean of fitnesses that all lie between `lo` and `hi` lies there too. */
  lemma MeanBetween(fits: seq<real>, lo: real, hi: real)
    requires |fits| > 0
    requires forall k :: 0 <= k < |fits| ==> lo <= fits[k] <= hi
    ensures lo <= Sum(fits) / |fits| as real <= hi
  {
    SumBetween(fits, lo, hi);
  }

  /** The reported average never falls below the reported minimum nor rises
      above the reported maximum. */
  lemma AverageWithinExtremes(fits: seq<real>)
    requires |fits| > 0
    ensures Fold(fits).minFit <= Fold(fits).sumFit / |fits| as real <= Fold(fits).maxFit
  {
    FoldMinIsMinimum(fits);
    FoldMaxIsMaximum(fits);
    FoldSumIsSum(fits);
    MeanBetween(fits, Fold(fits).minFit, Fold(fits).maxFit);
  }
}
