/** Tree-weight averaging of the prediction kernel
    (prediction_ops.cc, the `apply_averaging_` branch of `DoCompute`).

    Averaging picks a start index from the averaging config and scales the
    weight of every tree from there on by a factor that decays linearly from 1
    to 1/num, num being the number of averaged trees. The scaled weights are
    exactly the mean of the weight vectors of the last num "prefix ensembles"
    (the ensemble cut after tree start, after tree start + 1, ..., after the
    last tree): see `AveragingIsMeanOfLastEnsembles`. */
module Averaging {
  import opened Protos

  /** An averaging variant is set and its parameter passes the kernel
      constructor's range check: last-n positive, percent in (0, 1]. */
  predicate ValidAveraging(averaging: AveragingConfig) {
    match averaging
    case ConfigNotSet => false
    case AverageLastNTrees(n) => n > 0
    case AverageLastPercentTrees(p) => 0.0 < p <= 1.0
  }

  /** The integer part of x >= 0 (a C++ float-to-int conversion). */
  function Truncate(x: real): (r: nat)
    requires x >= 0.0
    ensures r as real <= x < r as real + 1.0
  {
    x.Floor
  }

  /** The least integer not below x. */
  function Ceiling(x: real): int {
    -((-x).Floor)
  }

  /** `start_averaging`: the index of the first averaged tree, computed in
      floating point as max(0, T - n) for last-n and max(0, T * (1 - p)) for
      percent, then converted to int. It never passes T, and when there are
      trees it leaves at least one to average, so the rescaling never divides
      by zero. */
  function StartAveraging(numTrees: nat, averaging: AveragingConfig): (start: nat)
    requires ValidAveraging(averaging)
    ensures start <= numTrees
    ensures numTrees > 0 ==> start < numTrees
  {
    var x := if averaging.AverageLastNTrees? then (numTrees - averaging.lastN) as real
             else numTrees as real * (1.0 - averaging.lastPercent);
    var clamped := if 0.0 < x then x else 0.0;
    assert averaging.AverageLastPercentTrees? && numTrees > 0 ==>
      x < numTrees as real by {
      if averaging.AverageLastPercentTrees? && numTrees > 0 {
        assert numTrees as real * averaging.lastPercent > 0.0;
      }
    }
    Truncate(clamped)
  }

  /** Shifting a real by an integer shifts its floor by the same integer. */
  lemma FloorShift(k: int, y: real)
    ensures (k as real + y).Floor == k + y.Floor
  {
    var f := y.Floor;
    assert (k + f) as real <= k as real + y < (k + f) as real + 1.0;
  }

  /** Last-n averaging averages the last min(n, T) trees. */
  lemma NumAveragedLastN(numTrees: nat, n: int)
    requires n > 0
    ensures numTrees - StartAveraging(numTrees, AverageLastNTrees(n)) ==
            if n < numTrees then n else numTrees
  {
  }

  /** Percent averaging averages the last ceil(T * p) trees; with p = 1 it
      averages all of them. */
  lemma NumAveragedPercent(numTrees: nat, p: real)
    requires 0.0 < p <= 1.0
    ensures numTrees - StartAveraging(numTrees, AverageLastPercentTrees(p)) ==
            Ceiling(numTrees as real * p)
    ensures p == 1.0 ==> StartAveraging(numTrees, AverageLastPercentTrees(p)) == 0
  {
    var tp := numTrees as real * p;
    assert numTrees as real * (1.0 - p) == numTrees as real + (-tp);
    assert 1.0 - p >= 0.0;
    assert numTrees as real * (1.0 - p) >= 0.0;
    FloorShift(numTrees, -tp);
  }

  /** The scale applied to tree i >= start: (num - (i - start)) / num, where
      num = T - start. */
  function AveragingFactor(start: nat, numTrees: nat, i: nat): real
    requires start <= i < numTrees
  {
    ((numTrees - start) - (i - start)) as real / (numTrees - start) as real
  }

  /** The new weight of tree i: weight * (num - i + start) / num, evaluated in
      that order as the source does. */
  function RescaledWeight(weight: real, num: int, i: int, start: int): real
    requires num > 0
  {
    weight * (num - i + start) as real / num as real
  }

  /** The weights after the rescaling loop: trees before `start` keep their
      weight, every later tree is rescaled with num = |weights| - start. */
  function AveragedWeights(weights: seq<real>, start: nat): seq<real>
    requires start <= |weights|
  {
    seq(|weights|, i requires 0 <= i < |weights| =>
      if i < start then weights[i] else RescaledWeight(weights[i], |weights| - start, i, start))
  }

  /** The ensemble the averaging branch hands to the predictor: a copy of the
      ensemble whose weights are averaged from `StartAveraging` on. */
  function AveragedEnsemble(ensemble: DecisionTreeEnsembleConfig, averaging: AveragingConfig)
    : DecisionTreeEnsembleConfig
    requires ensemble.WellFormed() && ValidAveraging(averaging)
  {
    ensemble.(treeWeights := AveragedWeights(ensemble.treeWeights,
                                             StartAveraging(|ensemble.trees|, averaging)))
  }

  /** Real-number facts behind one rescaled weight: w * k / n == w * (k / n),
      and for 1 <= k <= n the factor k / n lies in [1/n, 1] and drops when k
      does. */
  lemma ScaledWeight(w: real, k: real, n: real)
    requires 1.0 <= k <= n
    ensures w * k / n == w * (k / n)
    ensures 1.0 / n <= k / n <= 1.0
    ensures (k - 1.0) / n < k / n
  {
    var q := k / n;
    assert q * n == k;
    assert (w * q) * n == w * k;
    assert k / n - (k - 1.0) / n == 1.0 / n;
  }

  /** The averaging factor lies in [1/num, 1] and strictly decreases with the
      tree index: later trees count for less. */
  lemma AveragingFactorRange(start: nat, numTrees: nat)
    requires start < numTrees
    ensures AveragingFactor(start, numTrees, start) == 1.0
    ensures forall i :: start <= i < numTrees ==>
      1.0 / (numTrees - start) as real <= AveragingFactor(start, numTrees, i) <= 1.0
    ensures forall i :: start <= i && i + 1 < numTrees ==>
      AveragingFactor(start, numTrees, i + 1) < AveragingFactor(start, numTrees, i)
  {
    var num := numTrees - start;
    forall i | start <= i < numTrees
      ensures 1.0 / num as real <= AveragingFactor(start, numTrees, i) <= 1.0
      ensures i + 1 < numTrees ==>
        AveragingFactor(start, numTrees, i + 1) < AveragingFactor(start, numTrees, i)
    {
      var k := (num - i + start) as real;
      ScaledWeight(1.0, k, num as real);
      if i + 1 < numTrees {
        assert AveragingFactor(start, numTrees, i + 1) == (k - 1.0) / num as real;
      }
    }
    assert AveragingFactor(start, numTrees, start) == num as real / num as real;
  }

  /** The rescaling keeps the length, leaves trees before `start` unchanged,
      and scales every later tree by its averaging factor. */
  lemma AveragingRescale(weights: seq<real>, start: nat)
    requires start <= |weights|
    ensures |AveragedWeights(weights, start)| == |weights|
    ensures forall i :: 0 <= i < start ==> AveragedWeights(weights, start)[i] == weights[i]
    ensures forall i :: start <= i < |weights| ==>
      AveragedWeights(weights, start)[i] == weights[i] * AveragingFactor(start, |weights|, i)
  {
    var r := AveragedWeights(weights, start);
    var num := |weights| - start;
    forall i | start <= i < |weights|
      ensures r[i] == weights[i] * AveragingFactor(start, |weights|, i)
    {
      ScaledWeight(weights[i], (num - i + start) as real, num as real);
    }
  }

  // ---------------------------------------------------------------------------
  // Reference definition: the mean of the last num prefix ensembles
  // ---------------------------------------------------------------------------

  /** The weight of tree j in the ensemble cut after tree m (trees 0..m). */
  function PrefixEnsembleWeight(weights: seq<real>, m: nat, j: nat): real
    requires j < |weights|
  {
    if j <= m then weights[j] else 0.0
  }

  /** The sum, over the prefix ensembles ending at trees lo..hi-1, of the
      weight each gives tree j. */
  function SumOfPrefixWeights(weights: seq<real>, j: nat, lo: nat, hi: nat): real
    requires j < |weights| && lo <= hi
    decreases hi - lo
  {
    if lo == hi then 0.0
    else PrefixEnsembleWeight(weights, lo, j) + SumOfPrefixWeights(weights, j, lo + 1, hi)
  }

  /** How many of the prefix ensembles ending at lo..hi-1 contain tree j. */
  function ContainingPrefixes(j: nat, lo: nat, hi: nat): nat
    requires lo <= hi
  {
    if j <= lo then hi - lo else if j < hi then hi - j else 0
  }

  /** The mean weight vector of the num = T - start prefix ensembles ending at
      trees start, start + 1, ..., T - 1. */
  function MeanOfLastEnsembles(weights: seq<real>, start: nat): seq<real>
    requires start < |weights|
  {
    seq(|weights|, j requires 0 <= j < |weights| =>
      SumOfPrefixWeights(weights, j, start, |weights|) / (|weights| - start) as real)
  }

  lemma {:induction false} SumOfPrefixWeightsIsCount(weights: seq<real>, j: nat, lo: nat, hi: nat)
    requires j < |weights| && lo <= hi
    ensures SumOfPrefixWeights(weights, j, lo, hi) == weights[j] * ContainingPrefixes(j, lo, hi) as real
    decreases hi - lo
  {
    if lo < hi {
      SumOfPrefixWeightsIsCount(weights, j, lo + 1, hi);
      var c := ContainingPrefixes(j, lo + 1, hi);
      if j <= lo {
        assert ContainingPrefixes(j, lo, hi) == c + 1;
        assert weights[j] + weights[j] * c as real == weights[j] * (c + 1) as real;
      } else {
        assert ContainingPrefixes(j, lo, hi) == c;
      }
    }
  }

  /** The averaged weights are the mean of the weight vectors of the last num
      prefix ensembles: averaging the weights averages the last num models. */
  lemma AveragingIsMeanOfLastEnsembles(weights: seq<real>, start: nat)
    requires start < |weights|
    ensures AveragedWeights(weights, start) == MeanOfLastEnsembles(weights, start)
  {
    var a := AveragedWeights(weights, start);
    var m := MeanOfLastEnsembles(weights, start);
    var num := |weights| - start;
    forall j | 0 <= j < |weights| ensures a[j] == m[j] {
      SumOfPrefixWeightsIsCount(weights, j, start, |weights|);
      if j < start {
        ScaledWeight(weights[j], num as real, num as real);
      } else {
        assert ContainingPrefixes(j, start, |weights|) == num - j + start;
      }
    }
  }

  /** The averaging loop of `DoCompute`, run on a copy of the ensemble. Trees
      from `start_averaging` on are rescaled one by one; when the ensemble has
      no trees the loop body never runs. */
  method AverageTreeWeights(ensemble: DecisionTreeEnsembleConfig, averaging: AveragingConfig)
    returns (adjusted: DecisionTreeEnsembleConfig)
    requires ensemble.WellFormed() && ValidAveraging(averaging)
    ensures adjusted == AveragedEnsemble(ensemble, averaging)
  {
    adjusted := ensemble;
    var numTrees := |adjusted.trees|;
    var startAveraging := StartAveraging(numTrees, averaging);
    var numEnsembles := numTrees - startAveraging;
    ghost var target := AveragedWeights(ensemble.treeWeights, startAveraging);
    for i := startAveraging to numTrees
      invariant adjusted == ensemble.(treeWeights := adjusted.treeWeights)
      invariant |adjusted.treeWeights| == numTrees
      invariant forall j :: 0 <= j < numTrees ==>
        adjusted.treeWeights[j] == if j < i then target[j] else ensemble.treeWeights[j]
    {
      var weight := adjusted.treeWeights[i];
      adjusted := adjusted.(treeWeights := adjusted.treeWeights[i :=
        RescaledWeight(weight, numEnsembles, i, startAveraging)]);
    }
    assert adjusted.treeWeights == target;
  }
}
