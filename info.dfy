/**
 * The geometry record of a flood-filling network (`ModelInfo` in
 * ffn/training/model.py). Every vector is in (x, y, z) order, also for 2-D
 * models, whose z entry is then not used.
 */
module Info {

  /** A value that may be absent (Python's `None`). */
  datatype Option<+T> = None | Some(value: T)

  datatype ModelInfo = ModelInfo(
    // how far the field of view moves along x, y and z
    deltas: seq<int>,
    // extent of the patch the network predicts in one step
    predMaskSize: seq<nat>,
    // extent of the seed sub-volume fed in one step
    inputSeedSize: seq<nat>,
    // extent of the image sub-volume fed in one step
    inputImageSize: seq<nat>,
    // whether a predicted seed is added to its initial state
    additive: bool)
  {
    /**
     * The record's invariant: four 3-vectors, and a seed at least as large
     * as the predicted mask on every axis, so that the padding in the seed
     * update is never negative.
     */
    predicate Valid()
    {
      && |deltas| == 3
      && |predMaskSize| == 3
      && |inputSeedSize| == 3
      && |inputImageSize| == 3
      && forall i :: 0 <= i < 3 ==> predMaskSize[i] <= inputSeedSize[i]
    }
  }
}
