/** The `GradientTreesPartitionExamples` kernel (prediction_ops.cc, class
    `GradientTreesPartitionExamplesOp`): it chooses the tree to partition on
    and hands it to the example partitioner, which is a parameter here. */
module PartitionOp {
  import opened Status
  import opened Protos

  /** The tree the kernel partitions on: by convention the last tree when it is
      not finalized (the tree being grown), otherwise a tree with no nodes. */
  function PartitionTree(ensemble: DecisionTreeEnsembleConfig): (tree: DecisionTreeConfig)
    requires ensemble.WellFormed()
    ensures tree == EmptyTree || tree in ensemble.trees
  {
    var numTrees := |ensemble.trees|;
    if numTrees > 0 && !ensemble.treeMetadata[numTrees - 1].isFinalized then
      ensemble.trees[numTrees - 1]
    else
      EmptyTree
  }

  /** Every tree but the last is finalized: only the last tree can still be
      growing. */
  predicate OnlyLastTreeGrowing(ensemble: DecisionTreeEnsembleConfig)
    requires ensemble.WellFormed()
  {
    forall i :: 0 <= i < |ensemble.treeMetadata| - 1 ==> ensemble.treeMetadata[i].isFinalized
  }

  /** In an ensemble where only the last tree can be growing, the partition
      tree is the growing tree when there is one, and the empty tree when every
      tree is finalized (in particular when there are no trees). */
  lemma PartitionTreeIsGrowingTree(ensemble: DecisionTreeEnsembleConfig)
    requires ensemble.WellFormed() && OnlyLastTreeGrowing(ensemble)
    ensures forall i :: 0 <= i < |ensemble.trees| && !ensemble.treeMetadata[i].isFinalized ==>
            PartitionTree(ensemble) == ensemble.trees[i]
    ensures (forall i :: 0 <= i < |ensemble.trees| ==> ensemble.treeMetadata[i].isFinalized) ==>
            PartitionTree(ensemble) == EmptyTree
  {
  }

  /** `ExamplePartitioner::PartitionExamples(tree, batch_features,
      num_threads, ...)`: one leaf id per example. */
  type PartitionFn = (DecisionTreeConfig, BatchFeatures, nat) -> seq<int>

  /** The only property of the partitioner the kernel relies on: it writes one
      id per example of the batch. */
  ghost predicate PartitionerShaped(partitionExamples: PartitionFn) {
    forall t, f, n :: |partitionExamples(t, f, n)| == f.batchSize
  }

  class GradientTreesPartitionExamplesOp {
    var useLocking: bool

    constructor (useLockingAttr: bool)
      ensures useLocking == useLockingAttr
    {
      useLocking := useLockingAttr;
    }

    /** One partitioning call: the chosen tree and the batch go to the
        partitioner, whose ids are the output. `features` is the outcome of
        reading the feature inputs; `numThreads` is the worker pool's size. */
    method DoCompute(resource: DecisionTreeEnsembleResource, features: Result<BatchFeatures>,
                     numThreads: nat, partitionExamples: PartitionFn)
      returns (r: Result<seq<int>>)
      requires resource.ensemble.WellFormed()
      requires PartitionerShaped(partitionExamples)
      ensures unchanged(resource)
      ensures features.Failure? ==> r == Failure(features.error)
      ensures features.Success? ==>
        && r == Success(partitionExamples(PartitionTree(resource.ensemble), features.value, numThreads))
        && |r.value| == features.value.batchSize
    {
      var treeConfig := PartitionTree(resource.ensemble);
      if features.Failure? {
        return Failure(features.error);
      }
      var partitionIds := partitionExamples(treeConfig, features.value, numThreads);
      r := Success(partitionIds);
    }
  }
}
