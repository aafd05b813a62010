/**
 * `update_seed`: the predicted update, whose spatial extent is the predicted
 * mask size, is zero-padded to the seed's extent, centred, and added to the
 * seed. Tensors are laid out (batch, z, y, x, channel).
 */
module SeedUpdate {
  import opened Info
  import opened Shapes
  import opened Tensors

  /** Splits `d` padding cells into a (before, after) pair, the odd cell going after. */
  function PadSplit(d: nat): (p: (nat, nat))
    ensures p.0 + p.1 == d
    ensures p.0 <= p.1 <= p.0 + 1
  {
    (d / 2, d - d / 2)
  }

  /** The excess of the seed over the predicted mask along stored axis `axis` (0 = x). */
  function Excess(info: ModelInfo, axis: nat): (d: nat)
    requires info.Valid() && axis < 3
    ensures info.predMaskSize[axis] + d == info.inputSeedSize[axis]
  {
    info.inputSeedSize[axis] - info.predMaskSize[axis]
  }

  /**
   * The widths passed to `tf.pad`: none on the batch and channel axes, and on
   * the z, y and x tensor axes the split of the matching excess.
   */
  function SeedPadding(info: ModelInfo): (pads: seq<(nat, nat)>)
    requires info.Valid()
    ensures |pads| == 5
    ensures pads[0] == (0, 0) && pads[4] == (0, 0)
    ensures forall axis :: 0 <= axis < 3 ==>
      && pads[3 - axis].0 + pads[3 - axis].1 == Excess(info, axis)
      && pads[3 - axis].0 <= pads[3 - axis].1 <= pads[3 - axis].0 + 1
  {
    [(0, 0), PadSplit(Excess(info, 2)), PadSplit(Excess(info, 1)), PadSplit(Excess(info, 0)), (0, 0)]
  }

  /** Padding an update of the mask's shape yields exactly the seed's shape. */
  lemma PaddingFillsSeed(info: ModelInfo, batch: nat, channels: nat)
    requires info.Valid()
    ensures PaddedShape(TensorShape(batch, info.predMaskSize, channels), SeedPadding(info)) ==
            TensorShape(batch, info.inputSeedSize, channels)
  {
    TensorShapeOfVector3(batch, info.predMaskSize, channels);
    TensorShapeOfVector3(batch, info.inputSeedSize, channels);
  }

  function UpdateSeed(info: ModelInfo, seed: Tensor, update: Tensor, batch: nat, channels: nat): (r: Tensor)
    requires info.Valid()
    requires HasShape(seed, TensorShape(batch, info.inputSeedSize, channels))
    requires HasShape(update, TensorShape(batch, info.predMaskSize, channels))
    ensures HasShape(r, TensorShape(batch, info.inputSeedSize, channels))
  {
    var seedShape := TensorShape(batch, info.inputSeedSize, channels);
    var maskShape := TensorShape(batch, info.predMaskSize, channels);
    var dx, dy, dz := Excess(info, 0), Excess(info, 1), Excess(info, 2);
    if dx == 0 && dy == 0 && dz == 0 then
      assert maskShape == seedShape by {
        assert info.predMaskSize == info.inputSeedSize;
      }
      Add(seed, update, seedShape)
    else
      PaddingFillsSeed(info, batch, channels);
      Add(seed, Pad(update, maskShape, SeedPadding(info)), seedShape)
  }

  /**
   * Pointwise meaning of the seed update: inside the window where the
   * centred update lands, the result is the seed plus the update element
   * shifted back by the before widths; everywhere else it is the seed.
   */
  lemma UpdateSeedAt(info: ModelInfo, seed: Tensor, update: Tensor, batch: nat, channels: nat, idx: seq<int>)
    requires info.Valid()
    requires HasShape(seed, TensorShape(batch, info.inputSeedSize, channels))
    requires HasShape(update, TensorShape(batch, info.predMaskSize, channels))
    requires InBounds(idx, TensorShape(batch, info.inputSeedSize, channels))
    ensures var maskShape, pads := TensorShape(batch, info.predMaskSize, channels), SeedPadding(info);
      Get(UpdateSeed(info, seed, update, batch, channels), idx) ==
        if InWindow(idx, maskShape, pads) then Get(seed, idx) + Get(update, Unpad(idx, pads))
        else Get(seed, idx)
  {
    var seedShape := TensorShape(batch, info.inputSeedSize, channels);
    var maskShape := TensorShape(batch, info.predMaskSize, channels);
    var pads := SeedPadding(info);
    PaddingFillsSeed(info, batch, channels);
    var padded := Pad(update, maskShape, pads);
    if Excess(info, 0) == 0 && Excess(info, 1) == 0 && Excess(info, 2) == 0 {
      PadNothing(update, maskShape, pads);
    }
    AddAt(seed, padded, seedShape, idx);
    PadAt(update, maskShape, pads, idx);
  }

  /**
   * When seed and mask sizes agree, the result is the plain elementwise sum,
   * and padding would leave the update as it is, so the shortcut branch
   * agrees with the padded one.
   */
  lemma UpdateSeedWithoutPadding(info: ModelInfo, seed: Tensor, update: Tensor, batch: nat, channels: nat)
    requires info.Valid() && info.inputSeedSize == info.predMaskSize
    requires HasShape(seed, TensorShape(batch, info.inputSeedSize, channels))
    requires HasShape(update, TensorShape(batch, info.predMaskSize, channels))
    ensures forall idx :: InBounds(idx, TensorShape(batch, info.inputSeedSize, channels)) ==>
      Get(UpdateSeed(info, seed, update, batch, channels), idx) == Get(seed, idx) + Get(update, idx)
    ensures Pad(update, TensorShape(batch, info.predMaskSize, channels), SeedPadding(info)) == update
  {
    var shape := TensorShape(batch, info.inputSeedSize, channels);
    PadNothing(update, shape, SeedPadding(info));
    forall idx | InBounds(idx, shape)
      ensures Get(UpdateSeed(info, seed, update, batch, channels), idx) == Get(seed, idx) + Get(update, idx)
    {
      AddAt(seed, update, shape, idx);
    }
  }

  /**
   * The same fact in the source's terms: the update lands at offset
   * (dz // 2, dy // 2, dx // 2) on the (z, y, x) axes, at no offset on the
   * batch and channel axes, and the seed is unchanged outside that window.
   */
  lemma UpdateSeedCentred(info: ModelInfo, seed: Tensor, update: Tensor, batch: nat, channels: nat,
                          b: int, z: int, y: int, x: int, c: int)
    requires info.Valid()
    requires HasShape(seed, TensorShape(batch, info.inputSeedSize, channels))
    requires HasShape(update, TensorShape(batch, info.predMaskSize, channels))
    requires InBounds([b, z, y, x, c], TensorShape(batch, info.inputSeedSize, channels))
    ensures var oz, oy, ox := Excess(info, 2) / 2, Excess(info, 1) / 2, Excess(info, 0) / 2;
      Get(UpdateSeed(info, seed, update, batch, channels), [b, z, y, x, c]) ==
        if && oz <= z < oz + info.predMaskSize[2]
           && oy <= y < oy + info.predMaskSize[1]
           && ox <= x < ox + info.predMaskSize[0]
        then Get(seed, [b, z, y, x, c]) + Get(update, [b, z - oz, y - oy, x - ox, c])
        else Get(seed, [b, z, y, x, c])
  {
    var idx := [b, z, y, x, c];
    var maskShape, pads := TensorShape(batch, info.predMaskSize, channels), SeedPadding(info);
    TensorShapeOfVector3(batch, info.predMaskSize, channels);
    TensorShapeOfVector3(batch, info.inputSeedSize, channels);
    UpdateSeedAt(info, seed, update, batch, channels, idx);
    assert Unpad(idx, pads) == [b, z - pads[1].0, y - pads[2].0, x - pads[3].0, c];
    assert InWindow(idx, maskShape, pads) <==>
      && pads[1].0 <= z < pads[1].0 + info.predMaskSize[2]
      && pads[2].0 <= y < pads[2].0 + info.predMaskSize[1]
      && pads[3].0 <= x < pads[3].0 + info.predMaskSize[0];
  }
}
