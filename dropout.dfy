/** The dropout step of the prediction kernel (prediction_ops.cc, `DoCompute`):
    the seed, the set of trees that must not be dropped, and the layout of the
    `drop_out_tree_indices_weights` output. The random selection itself
    (`DropoutUtils::DropOutTrees`) is not part of this model: it is a
    parameter of the kernel whose only assumed property is its output shape. */
module Dropout {
  import opened Status
  import opened Protos

  newtype int64 = x: int | -0x8000_0000_0000_0000 <= x < 0x8000_0000_0000_0000
  newtype uint64 = x: int | 0 <= x < 0x1_0000_0000_0000_0000

  /** The `seed` input: a tensor of int64; only a scalar is accepted, and its
      value is then `scalarValue`. */
  datatype SeedTensor = SeedTensor(shape: seq<nat>, scalarValue: int64) {
    predicate IsScalar() {
      shape == []
    }
  }

  const SeedNotScalarMessage := "Seed must be a scalar."

  /** The int64 seed converted to uint64: two's-complement wrap-around, so the
      result is the unique uint64 congruent to the seed modulo 2^64. */
  function SeedToUint64(v: int64): (r: uint64)
    ensures (r as int - v as int) % 0x1_0000_0000_0000_0000 == 0
    ensures 0 <= v ==> r as int == v as int
  {
    if 0 <= v then v as int as uint64 else (v as int + 0x1_0000_0000_0000_0000) as uint64
  }

  /** What the dropout selector returns: the dropped tree indices and, in the
      same order, their weights before dropout. */
  datatype DropoutSelection = DropoutSelection(droppedTrees: seq<int>, originalWeights: seq<real>)

  /** `DropoutUtils::DropOutTrees(seed, config, trees_not_to_drop, weights)`. */
  type DropOutTreesFn = (uint64, DropoutConfig, set<int>, seq<real>) -> Result<DropoutSelection>

  /** The only property of the selector the kernel relies on: one original
      weight per dropped tree. */
  predicate SelectionShaped(r: Result<DropoutSelection>) {
    r.Success? ==> |r.value.originalWeights| == |r.value.droppedTrees|
  }

  /** The selector keeps that shape whatever its inputs. */
  ghost predicate SelectorShaped(dropOutTrees: DropOutTreesFn) {
    forall s, c, t, w :: SelectionShaped(dropOutTrees(s, c, t, w))
  }

  const NoDropout := DropoutSelection([], [])

  /** The trees the selector may not drop: tree 0 when the bias is centered,
      and the tree being grown (index T - 1) when the ensemble has growing
      metadata. */
  function ExclusionSet(centerBias: bool, hasGrowingMetadata: bool, numTrees: nat): set<int> {
    (if centerBias then {0} else {}) + (if hasGrowingMetadata then {numTrees - 1} else {})
  }

  /** Tree 0 is protected exactly when the bias is centered, or when the only
      tree is the one being grown; the last tree exactly when it is being grown,
      or when it is tree 0 and the bias is centered. With growing metadata and
      no trees the set holds -1, which names no tree. */
  lemma ExclusionSetMembers(centerBias: bool, hasGrowingMetadata: bool, numTrees: nat)
    ensures 0 in ExclusionSet(centerBias, hasGrowingMetadata, numTrees) <==>
            centerBias || (hasGrowingMetadata && numTrees == 1)
    ensures numTrees > 0 ==>
            (numTrees - 1 in ExclusionSet(centerBias, hasGrowingMetadata, numTrees) <==>
             hasGrowingMetadata || (centerBias && numTrees == 1))
    ensures forall t :: t in ExclusionSet(centerBias, hasGrowingMetadata, numTrees) ==>
            t == 0 || t == numTrees - 1
    ensures !centerBias && !hasGrowingMetadata ==>
            ExclusionSet(centerBias, hasGrowingMetadata, numTrees) == {}
  {
  }

  /** Builds `trees_not_to_drop` by the kernel's two inserts. */
  method TreesNotToDrop(centerBias: bool, hasGrowingMetadata: bool, numTrees: nat)
    returns (treesNotToDrop: set<int>)
    ensures treesNotToDrop == ExclusionSet(centerBias, hasGrowingMetadata, numTrees)
  {
    treesNotToDrop := {};
    if centerBias {
      treesNotToDrop := treesNotToDrop + {0};
    }
    if hasGrowingMetadata {
      // The last tree is the one being built and cannot be dropped.
      var currentTree := numTrees - 1;
      treesNotToDrop := treesNotToDrop + {currentTree};
    }
  }

  /** Fills the 2 x K dropout-info matrix: column j holds the j-th dropped tree
      index (row 0) and its original weight (row 1). */
  method FillDropoutInfo(droppedTrees: seq<int>, originalWeights: seq<real>)
    returns (info: array2<real>)
    requires |originalWeights| >= |droppedTrees|
    ensures fresh(info)
    ensures info.Length0 == 2 && info.Length1 == |droppedTrees|
    ensures forall j :: 0 <= j < |droppedTrees| ==>
      info[0, j] == droppedTrees[j] as real && info[1, j] == originalWeights[j]
  {
    info := new real[2, |droppedTrees|];
    for i := 0 to |droppedTrees|
      invariant forall j :: 0 <= j < i ==>
        info[0, j] == droppedTrees[j] as real && info[1, j] == originalWeights[j]
    {
      info[0, i] := droppedTrees[i] as real;
      info[1, i] := originalWeights[i];
    }
  }
}
