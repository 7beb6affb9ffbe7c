/** The `GradientTreesPrediction` kernel (prediction_ops.cc, class
    `GradientTreesPredictionOp`): the configuration its constructor derives
    and validates, and the steps of `DoCompute` around the ensemble predictor.
    Resource lookup, locking and the worker pool are not modelled; the
    predictor (`MultipleAdditiveTrees::Predict`) and the dropout selector are
    parameters whose only assumed properties are output shapes. */
module PredictionOp {
  import opened Status
  import opened Protos
  import opened Averaging
  import opened Dropout

  const ParseErrorMessage := "Unable to parse learner config config."
  const NumClassesMessage := "Number of classes must be >=2"
  const LastNTreesMessage := "Average last n trees must be a positive number"
  const LastPercentMessage := "Average last percent must be in (0,1] interval."

  /** The length of one prediction vector: one slot per class, except that
      tree-per-class learning leaves one class implicit. */
  function PredictionVectorSize(numClasses: int, strategy: MultiClassStrategy): (size: int)
    requires numClasses >= 2
    ensures 1 <= size <= numClasses
    ensures strategy == TreePerClass ==> size == numClasses - 1
    ensures strategy != TreePerClass ==> size == numClasses
  {
    if strategy == TreePerClass then numClasses - 1 else numClasses
  }

  /** The learner config has a learning-rate tuner and it is the dropout one. */
  predicate HasDropoutTuner(config: LearnerConfig) {
    config.learningRateTuner.Some? && config.learningRateTuner.value.DropoutTuner?
  }

  /** The status the constructor's averaging range check leaves. The
      variant "not set" aborts the process in the source; the constructor
      only checks a set variant, so that case is left out. */
  function AveragingCheck(averaging: AveragingConfig): (s: Status)
    requires averaging != ConfigNotSet
    ensures s == OK <==> ValidAveraging(averaging)
    ensures averaging.AverageLastNTrees? && s != OK ==> s == Failed(InvalidArgument(LastNTreesMessage))
    ensures averaging.AverageLastPercentTrees? && s != OK ==> s == Failed(InvalidArgument(LastPercentMessage))
  {
    match averaging
    case AverageLastNTrees(n) =>
      if n > 0 then OK else Failed(InvalidArgument(LastNTreesMessage))
    case AverageLastPercentTrees(p) =>
      if 0.0 < p && p <= 1.0 then OK else Failed(InvalidArgument(LastPercentMessage))
  }

  /** The outputs `predictions`, `no_dropout_predictions` and
      `drop_out_tree_indices_weights`. */
  datatype PredictionOutputs = PredictionOutputs(
    predictions: seq<seq<real>>,
    noDropoutPredictions: seq<seq<real>>,
    dropoutInfo: array2<real>)

  /** What the predictor writes into the two prediction matrices. */
  datatype Predictions = Predictions(withDropout: seq<seq<real>>, noDropout: seq<seq<real>>)

  /** `MultipleAdditiveTrees::Predict(ensemble, only_finalized_trees,
      dropped_trees, batch_features, ...)` filling matrices with the given
      number of columns. */
  type PredictFn = (DecisionTreeEnsembleConfig, bool, seq<int>, BatchFeatures, nat) -> Predictions

  /** The only property of the predictor the kernel relies on: both matrices
      have one row per example and one column per prediction slot. */
  predicate PredictionsShaped(p: Predictions, rows: nat, cols: nat) {
    MatrixShape(p.withDropout, rows, cols) && MatrixShape(p.noDropout, rows, cols)
  }

  /** The predictor fills matrices of the shape it is given, whatever its other inputs. */
  ghost predicate PredictorShaped(predict: PredictFn) {
    forall e, o, d, f, v :: PredictionsShaped(predict(e, o, d, f, v), f.batchSize, v)
  }

  lemma PredictorShapedAt(predict: PredictFn, e: DecisionTreeEnsembleConfig, o: bool,
                          d: seq<int>, f: BatchFeatures, v: nat)
    requires PredictorShaped(predict)
    ensures PredictionsShaped(predict(e, o, d, f, v), f.batchSize, v)
  {
  }

  /** The dropout step of `DoCompute`: nothing is dropped unless dropout is
      active (the seed is then not even read); otherwise a non-scalar seed is an
      error, and the selector runs on the seed, the ensemble's weights and the
      exclusion set. */
  function DropoutStep(active: bool, centerBias: bool, config: DropoutConfig,
                       ensemble: DecisionTreeEnsembleConfig, seed: SeedTensor,
                       dropOutTrees: DropOutTreesFn): (step: Result<DropoutSelection>)
    requires SelectorShaped(dropOutTrees)
    ensures SelectionShaped(step)
    ensures !active ==> step == Success(NoDropout)
  {
    if !active then Success(NoDropout)
    else if !seed.IsScalar() then Failure(InvalidArgument(SeedNotScalarMessage))
    else dropOutTrees(SeedToUint64(seed.scalarValue), config,
                      ExclusionSet(centerBias, ensemble.hasGrowingMetadata, |ensemble.trees|),
                      ensemble.treeWeights)
  }

  /** The ensemble `DoCompute` hands to the predictor: an averaged copy when
      averaging applies, the resource's ensemble itself otherwise. */
  function EnsembleToPredict(applyAveraging: bool, averaging: AveragingConfig,
                             ensemble: DecisionTreeEnsembleConfig): DecisionTreeEnsembleConfig
    requires ensemble.WellFormed() && (applyAveraging ==> ValidAveraging(averaging))
  {
    if applyAveraging then AveragedEnsemble(ensemble, averaging) else ensemble
  }

  class GradientTreesPredictionOp {
    /** The status the kernel's construction ended with. */
    var status: Status
    var useLocking: bool
    var centerBias: bool
    var applyDropout: bool
    var numClasses: int
    var predictionVectorSize: int
    var onlyFinalizedTrees: bool
    var hasDropout: bool
    var dropoutConfig: DropoutConfig
    var applyAveraging: bool
    var averagingConfig: AveragingConfig

    /** Construction succeeded, and with it every check it makes. */
    ghost predicate Constructed()
      reads this
    {
      && status == OK
      && numClasses >= 2
      && 1 <= predictionVectorSize <= numClasses
      && (applyAveraging ==> ValidAveraging(averagingConfig))
    }

    /** Reads the attributes and the parsed learner config (None: the
        `learner_config` attribute did not parse) and derives the kernel's
        configuration. Each failed check stops construction with the status
        it sets. */
    constructor (useLockingAttr: bool, centerBiasAttr: bool, applyDropoutAttr: bool,
                 learnerConfig: Option<LearnerConfig>, applyAveragingAttr: bool)
      ensures useLocking == useLockingAttr && centerBias == centerBiasAttr
      ensures applyDropout == applyDropoutAttr
      ensures learnerConfig.None? ==> status == Failed(InvalidArgument(ParseErrorMessage))
      ensures learnerConfig.Some? ==> numClasses == learnerConfig.value.numClasses
      ensures learnerConfig.Some? && learnerConfig.value.numClasses < 2 ==>
              status == Failed(InvalidArgument(NumClassesMessage))
      ensures learnerConfig.Some? && learnerConfig.value.numClasses >= 2 ==>
        var config := learnerConfig.value;
        && predictionVectorSize == PredictionVectorSize(config.numClasses, config.multiClassStrategy)
        && onlyFinalizedTrees == (config.growingMode == WholeTree)
        && hasDropout == HasDropoutTuner(config)
        && (hasDropout ==> dropoutConfig == config.learningRateTuner.value.dropout)
        && applyAveraging == (applyAveragingAttr && config.averagingConfig != ConfigNotSet)
        && (applyAveraging ==> averagingConfig == config.averagingConfig)
        && status == (if applyAveraging then AveragingCheck(config.averagingConfig) else OK)
      ensures status == OK <==>
        && learnerConfig.Some?
        && learnerConfig.value.numClasses >= 2
        && (applyAveragingAttr && learnerConfig.value.averagingConfig != ConfigNotSet ==>
              ValidAveraging(learnerConfig.value.averagingConfig))
      ensures status == OK ==> Constructed()
    {
      useLocking := useLockingAttr;
      centerBias := centerBiasAttr;
      applyDropout := applyDropoutAttr;
      if learnerConfig.None? {
        status := Failed(InvalidArgument(ParseErrorMessage));
      } else {
        var config := learnerConfig.value;
        numClasses := config.numClasses;
        if config.numClasses < 2 {
          status := Failed(InvalidArgument(NumClassesMessage));
        } else {
          predictionVectorSize :=
            if config.multiClassStrategy == TreePerClass then config.numClasses - 1
            else config.numClasses;
          onlyFinalizedTrees := config.growingMode == WholeTree;
          if config.learningRateTuner.Some? && config.learningRateTuner.value.DropoutTuner? {
            dropoutConfig := config.learningRateTuner.value.dropout;
            hasDropout := true;
          } else {
            hasDropout := false;
          }
          // The attribute is honoured only when an averaging variant is set.
          var averaging := applyAveragingAttr;
          averaging := averaging && config.averagingConfig != ConfigNotSet;
          applyAveraging := averaging;
          if averaging {
            averagingConfig := config.averagingConfig;
            // A set variant whose parameter is out of range stops construction.
            status := AveragingCheck(config.averagingConfig);
          } else {
            status := OK;
          }
        }
      }
    }

    /** One prediction call on the ensemble held by `resource`. `features` is
        the outcome of reading the feature inputs (its batch size when they
        were consistent); `seed` is the `seed` input. */
    method DoCompute(resource: DecisionTreeEnsembleResource, features: Result<BatchFeatures>,
                     seed: SeedTensor, dropOutTrees: DropOutTreesFn, predict: PredictFn)
      returns (r: Result<PredictionOutputs>)
      requires Constructed()
      requires resource.ensemble.WellFormed()
      requires SelectorShaped(dropOutTrees)
      requires PredictorShaped(predict)
      ensures unchanged(resource)
      ensures features.Failure? ==> r == Failure(features.error)
      ensures r.Success? ==> fresh(r.value.dropoutInfo)
      ensures features.Success? && !(applyDropout && hasDropout) ==>
              r.Success? && r.value.dropoutInfo.Length1 == 0
      ensures features.Success? && applyDropout && hasDropout && !seed.IsScalar() ==>
              r == Failure(InvalidArgument(SeedNotScalarMessage))
      ensures features.Success? ==>
        var step := DropoutStep(applyDropout && hasDropout, centerBias, dropoutConfig,
                                resource.ensemble, seed, dropOutTrees);
        && (step.Failure? ==> r == Failure(step.error))
        && (step.Success? ==> r.Success?)
      ensures r.Success? ==>
        var step := DropoutStep(applyDropout && hasDropout, centerBias, dropoutConfig,
                                resource.ensemble, seed, dropOutTrees);
        && features.Success? && step.Success?
        && var dropped := step.value.droppedTrees;
           var p := predict(EnsembleToPredict(applyAveraging, averagingConfig, resource.ensemble),
                            onlyFinalizedTrees, dropped, features.value, predictionVectorSize);
           var info := r.value.dropoutInfo;
           && r.value.predictions == p.withDropout
           && r.value.noDropoutPredictions == p.noDropout
           && MatrixShape(r.value.predictions, features.value.batchSize, predictionVectorSize)
           && MatrixShape(r.value.noDropoutPredictions, features.value.batchSize, predictionVectorSize)
           && info.Length0 == 2 && info.Length1 == |dropped|
           && forall j :: 0 <= j < |dropped| ==>
                info[0, j] == dropped[j] as real && info[1, j] == step.value.originalWeights[j]
    {
      if features.Failure? {
        return Failure(features.error);
      }
      var batchFeatures := features.value;
      var ensemble := resource.ensemble;

      var droppedTrees: seq<int> := [];
      var originalWeights: seq<real> := [];
      if applyDropout && hasDropout {
        if !seed.IsScalar() {
          return Failure(InvalidArgument(SeedNotScalarMessage));
        }
        var seedValue := SeedToUint64(seed.scalarValue);
        var weights: seq<real> := [];
        for k := 0 to |ensemble.treeWeights|
          invariant weights == ensemble.treeWeights[..k]
        {
          weights := weights + [ensemble.treeWeights[k]];
        }
        assert weights == ensemble.treeWeights;
        var treesNotToDrop := TreesNotToDrop(centerBias, ensemble.hasGrowingMetadata, |ensemble.trees|);
        var selection := dropOutTrees(seedValue, dropoutConfig, treesNotToDrop, weights);
        if selection.Failure? {
          return Failure(selection.error);
        }
        droppedTrees, originalWeights := selection.value.droppedTrees, selection.value.originalWeights;
      }

      var predictions: Predictions;
      if applyAveraging {
        var adjusted := AverageTreeWeights(ensemble, averagingConfig);
        predictions := predict(adjusted, onlyFinalizedTrees, droppedTrees, batchFeatures,
                               predictionVectorSize);
        PredictorShapedAt(predict, adjusted, onlyFinalizedTrees, droppedTrees, batchFeatures,
                          predictionVectorSize);
      } else {
        predictions := predict(ensemble, onlyFinalizedTrees, droppedTrees, batchFeatures,
                               predictionVectorSize);
        PredictorShapedAt(predict, ensemble, onlyFinalizedTrees, droppedTrees, batchFeatures,
                          predictionVectorSize);
      }

      var dropoutInfo := FillDropoutInfo(droppedTrees, originalWeights);
      r := Success(PredictionOutputs(predictions.withDropout, predictions.noDropout, dropoutInfo));
    }
  }
}
