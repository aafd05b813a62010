/**
 * The state `FFNModel.__init__` builds that is not graph wiring: the
 * geometry record, the batch size, the dimensionality and the shift
 * collection used by the fixed-step training policy.
 */
module Ffn {
  import opened Info
  import opened Shifting
  import opened Shapes

  /**
   * Runs the three nested loops of the constructor: x outer, y middle,
   * z inner, each over {-d, 0, d}, appending every combination except
   * (0, 0, 0).
   */
  method EnumerateShifts(deltas: seq<int>) returns (shifts: seq<Shift>)
    requires |deltas| == 3
    ensures shifts == Shifts(deltas)
    ensures forall s :: s in shifts <==>
      s != Zero && s.0 in Axis(deltas[0]) && s.1 in Axis(deltas[1]) && s.2 in Axis(deltas[2])
  {
    shifts := [];
    for i := 0 to 3
      invariant shifts == ShiftsSoFar(deltas, 9 * i)
    {
      var dx := Axis(deltas[0])[i];
      for j := 0 to 3
        invariant shifts == ShiftsSoFar(deltas, 9 * i + 3 * j)
      {
        var dy := Axis(deltas[1])[j];
        for k := 0 to 3
          invariant shifts == ShiftsSoFar(deltas, 9 * i + 3 * j + k)
        {
          var dz := Axis(deltas[2])[k];
          ShiftsSoFarStep(deltas, i, j, k);
          if dx == 0 && dy == 0 && dz == 0 {
            continue;
          }
          shifts := shifts + [(dx, dy, dz)];
        }
      }
    }
    ShiftsSoFarAll(deltas);
    forall s ensures s in shifts <==>
      s != Zero && s.0 in Axis(deltas[0]) && s.1 in Axis(deltas[1]) && s.2 in Axis(deltas[2])
    {
      ShiftsMembership(deltas, s);
    }
  }

  class FfnModel {
    const info: ModelInfo
    // the batch size; None when it is left to be determined by the fed data
    const batchSize: Option<nat>
    // dimensionality of the model (2 or 3), fixed by each model variant
    const dim: int
    // candidate moves of the field of view for the fixed-step training policy
    var shifts: seq<Shift>

    constructor (info: ModelInfo, dim: int, batchSize: Option<nat>)
      requires info.Valid()
      ensures this.info == info && this.dim == dim && this.batchSize == batchSize
      ensures shifts == Shifts(info.deltas)
    {
      this.info := info;
      this.dim := dim;
      this.batchSize := batchSize;
      new;
      shifts := EnumerateShifts(info.deltas);
    }

    /**
     * The shapes `set_input_shapes` binds to the seed and patch inputs:
     * [batch, z, y, x, 1] of the seed and of the image sizes respectively.
     */
    method SetInputShapes() returns (seedShape: seq<Option<nat>>, patchesShape: seq<Option<nat>>)
      requires info.Valid()
      ensures seedShape == [batchSize, Some(info.inputSeedSize[2]), Some(info.inputSeedSize[1]),
                            Some(info.inputSeedSize[0]), Some(1)]
      ensures patchesShape == [batchSize, Some(info.inputImageSize[2]), Some(info.inputImageSize[1]),
                               Some(info.inputImageSize[0]), Some(1)]
    {
      seedShape := InputShape(batchSize, info.inputSeedSize);
      patchesShape := InputShape(batchSize, info.inputImageSize);
      InputShapeOfVector3(batchSize, info.inputSeedSize);
      InputShapeOfVector3(batchSize, info.inputImageSize);
    }
  }
}
