# Boosted-trees prediction and partition kernels

This project models the decision logic of the two TensorFlow op kernels in
`tensorflow/contrib/boosted_trees/kernels/prediction_ops.cc`. These kernels run a
gradient-boosted tree ensemble.

- **`GradientTreesPrediction`** (`PredictionOp.GradientTreesPredictionOp`).
  - Its constructor reads the attributes and the parsed learner config. It derives
    the prediction-vector size, whether only finalized trees are evaluated, whether
    a dropout tuner is present and whether averaging applies. It range-checks the
    averaging parameter.
  - `DoCompute` first runs the dropout step: a gate, a seed check, the set of trees
    that may not be dropped, and the call to the dropout selector. It then builds an
    averaged copy of the tree weights when averaging applies, calls the ensemble
    predictor, and fills the 2 x K dropout-info matrix.
- **`GradientTreesPartitionExamples`** (`PartitionOp.GradientTreesPartitionExamplesOp`).
  It picks the tree to partition on and hands it to the example partitioner.

Layout:

| file | module | contents |
|---|---|---|
| status.dfy | `Status` | errors, construction status, results |
| protos.dfy | `Protos` | learner config, ensemble config, the ensemble resource, the feature batch (its size) |
| averaging.dfy | `Averaging` | start index, averaged weights, the rescaling loop, and the proof that averaging is the mean of the last prefix ensembles |
| dropout.dfy | `Dropout` | seed conversion, the do-not-drop set, the dropout-info fill loop |
| prediction_op.dfy | `PredictionOp` | the prediction kernel: constructor and `DoCompute` |
| partition_op.dfy | `PartitionOp` | the partition kernel: tree choice and `DoCompute` |

Collaborators whose code is not part of this model are parameters of the kernels'
`DoCompute` methods. Each is an arrow-typed function. The only thing assumed of
each is the shape of its output (`SelectorShaped`, `PredictorShaped`,
`PartitionerShaped`). They are:

- `DropoutUtils::DropOutTrees`
- `MultipleAdditiveTrees::Predict`
- `ExamplePartitioner::PartitionExamples`

Feature reading, batch-size inference and `BatchFeatures::Initialize` are one
parameter, `features: Result<BatchFeatures>`. It holds either their error or the
batch size. The kernels keep their configuration in fields and change nothing else.
Neither `DoCompute` has a `modifies` clause, so neither changes the resource's
ensemble. Both state this as `unchanged(resource)`. Averaging works on a copy,
`AverageTreeWeights`, and the predictor receives that copy.

Two behaviours of the code that are easy to miss:

- With averaging requested but no averaging variant configured, the code quietly
  turns averaging off (`apply_averaging_` becomes false, lines 109-111). It does not
  reject the configuration.
- The do-not-drop set contains tree 0 iff `center_bias` is set, or the ensemble has
  growing metadata and exactly one tree. With growing metadata and no trees it
  contains -1 (`ExclusionSetMembers`).

## Model

| member | source | states |
|---|---|---|
| `PredictionOp.GradientTreesPredictionOp.constructor` | tensorflow/contrib/boosted_trees/kernels/prediction_ops.cc:67-137 | An unparsable config fails with InvalidArgument "Unable to parse learner config config.". `num_classes < 2` fails with "Number of classes must be >=2". Otherwise the fields are set as follows. The prediction-vector size follows the strategy. `only_finalized_trees` is true iff the growing mode is WHOLE_TREE. `has_dropout` is true iff a tuner is present and it is the dropout tuner, and then the dropout config is its config. `apply_averaging` is the attribute and a set variant. The status is the averaging range check when averaging applies, OK otherwise. Construction succeeds iff all of these checks pass. |
| `PredictionOp.PredictionVectorSize` | tensorflow/contrib/boosted_trees/kernels/prediction_ops.cc:91-94 | For `num_classes >= 2` the size is `num_classes - 1` under TREE_PER_CLASS and `num_classes` under every other strategy, so it lies in [1, num_classes]. |
| `PredictionOp.AveragingCheck` | tensorflow/contrib/boosted_trees/kernels/prediction_ops.cc:116-135 | A set variant passes iff last-n > 0, or percent lies in (0, 1]. Otherwise it fails with the variant's InvalidArgument message. The "not set" case is the source's unreachable abort and is left out of the match. |
| `Averaging.StartAveraging` | tensorflow/contrib/boosted_trees/kernels/prediction_ops.cc:268-274 | The start index is max(0, T - n) or max(0, T * (1 - p)), converted to int. It lies in [0, T], and below T whenever T > 0, so the rescaling never divides by zero. |
| `Averaging.NumAveragedLastN` | tensorflow/contrib/boosted_trees/kernels/prediction_ops.cc:268-276 | With last-n, `num_ensembles` = T - start = min(n, T). |
| `Averaging.NumAveragedPercent` | tensorflow/contrib/boosted_trees/kernels/prediction_ops.cc:268-276 | With percent p, `num_ensembles` = ceil(T * p). With p = 1 the start is 0. |
| `Averaging.AveragingRescale` | tensorflow/contrib/boosted_trees/kernels/prediction_ops.cc:276-281 | The rescaled weights keep their length. Trees before start keep their weight. Tree i >= start gets w_i * AveragingFactor, which is (num - (i - start)) / num. |
| `Averaging.AveragingFactorRange` | tensorflow/contrib/boosted_trees/kernels/prediction_ops.cc:276-281 | The factor is 1 at tree start, so that tree keeps its weight. It lies in [1/num, 1] and strictly decreases with i, so later trees count for less. |
| `Averaging.AveragingIsMeanOfLastEnsembles` | tensorflow/contrib/boosted_trees/kernels/prediction_ops.cc:276-281 | The rescaled weight vector equals the mean of the weight vectors of the num prefix ensembles that end at trees start, ..., T-1. |
| `Averaging.AverageTreeWeights` | tensorflow/contrib/boosted_trees/kernels/prediction_ops.cc:264-281 | The rescaling loop runs over a copy of the ensemble. The result is the input ensemble with only its weights replaced by the averaged weights. |
| `Dropout.SeedToUint64` | tensorflow/contrib/boosted_trees/kernels/prediction_ops.cc:215-216 | The int64 seed becomes the uint64 congruent to it modulo 2^64. Non-negative seeds keep their value. |
| `Dropout.TreesNotToDrop` | tensorflow/contrib/boosted_trees/kernels/prediction_ops.cc:225-238 | The two inserts build exactly `ExclusionSet`: tree 0 when center_bias, and T - 1 when the ensemble has growing metadata. |
| `Dropout.ExclusionSetMembers` | tensorflow/contrib/boosted_trees/kernels/prediction_ops.cc:225-238 | Tree 0 is protected iff center_bias, or growing metadata with T = 1. For T > 0 the last tree is protected iff growing metadata, or center_bias with T = 1. Nothing else is protected. Neither flag gives the empty set. |
| `Dropout.FillDropoutInfo` | tensorflow/contrib/boosted_trees/kernels/prediction_ops.cc:292-303 | The output is a newly allocated 2 x K matrix, K being the number of dropped trees. Column j holds (dropped_trees[j], original_weights[j]), in selection order. |
| `PredictionOp.DropoutStep` | tensorflow/contrib/boosted_trees/kernels/prediction_ops.cc:204-242 | The dropout step keeps the selector's output shape. When `apply_dropout && has_dropout` is false, nothing is dropped, whatever the seed. |
| `PredictionOp.GradientTreesPredictionOp.DoCompute` | tensorflow/contrib/boosted_trees/kernels/prediction_ops.cc:155-304 | A feature error is returned as is. With the gate off the call succeeds with a 2 x 0 dropout info. With the gate on, a non-scalar seed fails with "Seed must be a scalar.", and a selector error is returned. On success both predictions are the predictor's output, shaped [batch_size, vector size]. The predictor gets the averaged copy iff averaging applies, and the dropped trees of the dropout step. The dropout info is a new array, and its column j pairs dropped tree j with its original weight. The resource is unchanged. |
| `PartitionOp.PartitionTree` | tensorflow/contrib/boosted_trees/kernels/prediction_ops.cc:349-361 | The partition tree is either the empty tree or a tree of the ensemble. |
| `PartitionOp.PartitionTreeIsGrowingTree` | tensorflow/contrib/boosted_trees/kernels/prediction_ops.cc:349-361 | Suppose only the last tree can be non-finalized. Then the partition tree is the non-finalized tree if there is one. If every tree is finalized, including when there are none, it is the empty tree. |
| `PartitionOp.GradientTreesPartitionExamplesOp.DoCompute` | tensorflow/contrib/boosted_trees/kernels/prediction_ops.cc:346-418 | A feature error is returned as is. Otherwise the output is the partitioner's ids for the chosen tree, one per example. The resource is unchanged. |

## Left out

- Resource lookup, reference counting and the `use_locking` mutex (`Compute`, lines 139-152 and 330-343). This is resource lifecycle and concurrency. The lock flag is kept as a field only.
- The worker thread pool (lines 261-262 and 413-417). The model passes only the thread count to the partitioner.
- Feature reading, batch-size inference and `BatchFeatures::Initialize` (lines 158-202 and 363-407). Their code is not part of this model. They are one `Result<BatchFeatures>` parameter carrying the batch size.
- Tree traversal and summation in `MultipleAdditiveTrees::Predict`, the random selection in `DropoutUtils::DropOutTrees`, and leaf routing in `ExamplePartitioner`. Their code is not part of this model. They are function parameters that promise only their output shapes. Properties that rest on them are not stated. Examples: dropped trees avoid the do-not-drop set, and with-dropout and no-dropout predictions agree when nothing is dropped.
- Protocol-buffer parsing and `GetAttr`. A parsed learner config is a datatype value, and a config that does not parse is `None`. The second parse of the same string (lines 87-89) always succeeds once the first has, so it is not modelled separately. Failing `GetAttr` calls and failing `allocate_output` calls are not modelled.
- learner.proto is not part of this model. `average_last_n_trees` is taken as an integer count.
- Floating point. Weights and the averaging percent are reals, and the float-to-int conversion of the start index is the floor of a non-negative real. Rounding of `T * (1 - p)`, of the rescaled weights, and of dropped tree indices stored as floats is not modelled.
- 32-bit integers (`int32` tree indices, `int` counts) are unbounded here. The ensembles these kernels see are far smaller than 2^31 trees.
- The process abort for an unset averaging variant (lines 131-134). `AveragingCheck` requires a set variant, and the constructor only calls it when one is set.
- `DropoutStep`: its contract states only the gate and the output shape. The full dropout step, with the seed check and the arguments the selector receives, is stated in `GradientTreesPredictionOp.DoCompute`'s contract.
