/** The parsed configuration messages the kernels read, and the shared ensemble
    resource. Protocol-buffer parsing itself is not modelled: a message that
    parsed is a datatype value. */
module Protos {
  import opened Status

  // ---------------------------------------------------------------------------
  // Learner configuration (the `learner_config` attribute)
  // ---------------------------------------------------------------------------

  datatype MultiClassStrategy = TreePerClass | FullHessian | DiagonalHessian

  datatype GrowingMode = WholeTree | LayerByLayer

  /** Dropout parameters; the kernels hand them to the dropout selector untouched. */
  datatype DropoutConfig = DropoutConfig(
    dropoutProbability: real,
    probabilityOfSkippingDropout: real,
    learningRate: real)

  /** The `tuner` one-of of the learning-rate config. */
  datatype LearningRateTuner =
    | TunerNotSet
    | FixedTuner
    | DropoutTuner(dropout: DropoutConfig)
    | LineSearchTuner

  /** The `config` one-of of the averaging config. */
  datatype AveragingConfig =
    | ConfigNotSet
    | AverageLastNTrees(lastN: int)
    | AverageLastPercentTrees(lastPercent: real)

  datatype LearnerConfig = LearnerConfig(
    numClasses: int,
    multiClassStrategy: MultiClassStrategy,
    growingMode: GrowingMode,
    learningRateTuner: Option<LearningRateTuner>,   // None: field absent
    averagingConfig: AveragingConfig)

  // ---------------------------------------------------------------------------
  // Tree ensemble (the resource's `DecisionTreeEnsembleConfig`)
  // ---------------------------------------------------------------------------

  /** A node of a decision tree. Split kinds and leaf routing belong to the tree
      evaluator, which is not part of this model; only the shape is kept. */
  datatype TreeNode = LeafNode(leafValues: seq<real>) | SplitNode(leftId: nat, rightId: nat)

  datatype DecisionTreeConfig = DecisionTreeConfig(nodes: seq<TreeNode>)

  /** A default-constructed tree message: no nodes. */
  const EmptyTree := DecisionTreeConfig([])

  datatype TreeMetadata = TreeMetadata(isFinalized: bool)

  datatype DecisionTreeEnsembleConfig = DecisionTreeEnsembleConfig(
    trees: seq<DecisionTreeConfig>,
    treeWeights: seq<real>,
    treeMetadata: seq<TreeMetadata>,
    hasGrowingMetadata: bool)
  {
    /** One weight and one metadata entry per tree, as the ensemble keeps them. */
    predicate WellFormed() {
      |treeWeights| == |trees| && |treeMetadata| == |trees|
    }
  }

  /** The long-lived resource that owns the ensemble; kernels read it in place. */
  class DecisionTreeEnsembleResource {
    var ensemble: DecisionTreeEnsembleConfig

    constructor (ensemble: DecisionTreeEnsembleConfig)
      ensures this.ensemble == ensemble
    {
      this.ensemble := ensemble;
    }
  }

  /** What the kernels use of the initialized feature batch: its size. */
  datatype BatchFeatures = BatchFeatures(batchSize: nat)

  /** A matrix given as a sequence of rows has `rows` rows of `cols` entries. */
  predicate MatrixShape(m: seq<seq<real>>, rows: nat, cols: nat) {
    |m| == rows && forall i :: 0 <= i < |m| ==> |m[i]| == cols
  }
}
