# Flood-filling network model geometry

A Dafny model of the integer geometry in the base class of a flood-filling
network (FFN) segmentation model (`ffn/training/model.py`). A flood-filling
network grows a segmentation by repeatedly predicting a local update inside
a field of view and moving that field of view across a volume. The model
covers the four parts of the base class that are not TensorFlow graph wiring:

- `ModelInfo`, the geometry record: step sizes (`deltas`), predicted-mask
  size, seed and image input sizes, all in (x, y, z) order, and the
  `additive` flag (module `Info`). Its invariant `ModelInfo.Valid` requires
  four 3-vectors and a seed at least as large as the mask on every axis.
- The shift collection that `FFNModel.__init__` builds with three nested
  loops (modules `Shifting` and `Ffn`). `Shifts(deltas)` is the
  specification: the 27 loop visits (`Combinations`, x outer, y middle,
  z inner) with the all-zero triple filtered out. `EnumerateShifts` runs the
  loops and is proved equal to it. The class `FfnModel` stores the result in
  its `shifts` field when it is constructed.
- The input shapes that `set_input_shapes` binds: the batch size, the size
  vector reversed to (z, y, x), and one channel (module `Shapes`).
- `update_seed` (modules `Tensors` and `SeedUpdate`). Tensors are integer
  tensors of any rank, stored as nested sequences with an explicit shape.
  The update is zero-padded to the seed's extent, centred with the odd cell
  after, and added to the seed. When seed and mask sizes agree it is added
  directly. The main result, `UpdateSeedAt`, says what every element of the
  result is: inside the window where the update lands it is the seed plus
  the matching update element, and everywhere else it is the seed unchanged.

The shift collection has 26 entries only when all three deltas are
non-zero. With a zero z delta (which a 2-D configuration may choose, since it
ignores z) and non-zero x and y deltas, the z loop visits 0 three times, so
there are 24 entries and each planar move appears three times in a row
(`ShiftsOfPlanarDeltas`, `PlanarShiftsRepeat`). Whatever the deltas, there
are never more than 26 (`Shifts`).

## Model

| member | source | states |
|---|---|---|
| `Info.ModelInfo.Valid` | ffn/training/model.py:25-46 | the geometry record holds four (x, y, z) vectors (deltas, mask, seed and image sizes) and the additive flag; valid means each vector has 3 entries and the seed is at least the mask on every axis |
| `Shifting.Axis` | ffn/training/model.py:76-78 | the three values one loop runs over for a delta d: -d, 0, d, in that order |
| `Shifting.Combinations` | ffn/training/model.py:76-78 | the 27 triples the nested loops visit, visit n taking x from n / 9, y from n / 3 % 3 and z from n % 3 (x outer, z inner) |
| `Shifting.Shifts` | ffn/training/model.py:75-81 | the shift collection: the visited triples with the all-zero one skipped; it never has more than 26 entries |
| `Ffn.EnumerateShifts` | ffn/training/model.py:75-81 | the nested loops produce exactly `Shifts(deltas)`; a triple is in it iff it is non-zero and each component is -d, 0 or d for its axis |
| `Ffn.FfnModel.constructor` | ffn/training/model.py:64-81 | the model keeps its geometry record, dimensionality and batch size, and its `shifts` field is the shift collection of the record's deltas |
| `Ffn.FfnModel.SetInputShapes` | ffn/training/model.py:106-114 | the seed input gets shape [batch, seed z, seed y, seed x, 1] and the patch input [batch, image z, image y, image x, 1] |
| `Shifting.ShiftsExcludeZero` | ffn/training/model.py:79-81 | the all-zero move is never a shift, whatever the deltas |
| `Shifting.ShiftsMembership` | ffn/training/model.py:76-81 | a triple is a shift iff it is not all-zero and its x, y, z components lie in {-dx,0,dx}, {-dy,0,dy}, {-dz,0,dz} (both directions) |
| `Shifting.ShiftsOfNonZeroDeltas` | ffn/training/model.py:75-81 | with all deltas non-zero there are exactly 26 shifts, entry k is loop visit k (k < 13) or k+1 (k >= 13), the first is (-dx,-dy,-dz) and the last (dx,dy,dz) |
| `Shifting.ShiftsDistinct` | ffn/training/model.py:75-81 | with all deltas non-zero the 26 shifts are pairwise distinct |
| `Shifting.ShiftsOfPlanarDeltas` | ffn/training/model.py:76-81 | with a zero z delta and non-zero x and y deltas there are 24 shifts, the loop visits in order with visits 12 to 14 skipped |
| `Shifting.PlanarShiftsRepeat` | ffn/training/model.py:78-81 | with a zero z delta each of the 8 planar moves occurs three times in a row |
| `Shifting.ShiftsSoFarStep` | ffn/training/model.py:79-81 | one loop visit appends its triple (dx, dy, dz) to the collection unless all three are 0, in which case the collection is unchanged |
| `Shifting.ShiftsSoFarAll` | ffn/training/model.py:75-81 | after all 27 visits the collection is the shift collection |
| `Shifting.NonZeroMember` | ffn/training/model.py:79-81 | skipping the all-zero combination keeps every other visited triple and nothing else |
| `Shifting.NonZeroCutsRun` | ffn/training/model.py:79-81 | skipping drops a run of all-zero visits and keeps the visits around it in order |
| `Shapes.Reverse` | ffn/training/model.py:112 | `[::-1]`: the result has the input's length |
| `Shapes.ReverseAt` | ffn/training/model.py:112 | `[::-1]` puts element len-1-k at position k |
| `Shapes.ReverseReverse` | ffn/training/model.py:112 | reversing twice gives the (x, y, z) vector back, so a bound shape determines the stored sizes |
| `Shapes.InputShape` | ffn/training/model.py:111-114 | the shape list has the vector's length plus 2 entries: the batch size first, 1 last, and the size vector reversed between them |
| `Shapes.InputShapeOfVector3` | ffn/training/model.py:111-114 | for a 3-vector the input shape is [batch, z, y, x, 1] |
| `Shapes.InputShapeIsTensorShape` | ffn/training/model.py:111-114 | with a known batch size the bound input shape is the tensor layout (batch, z, y, x, channel) with one channel that the seed update works on |
| `Shapes.TensorShapeOfVector3` | ffn/training/model.py:178-183 | tensors are laid out (batch, z, y, x, channel): the stored (x, y, z) sizes appear reversed |
| `Tensors.Add` | ffn/training/model.py:176 | the elementwise sum of two tensors of one shape has that shape |
| `Tensors.AddAt` | ffn/training/model.py:176 | each element of the sum is the sum of the two elements |
| `Tensors.Zeros` | ffn/training/model.py:178-183 | the zero fill `tf.pad` inserts has the shape asked for |
| `Tensors.ZerosAt` | ffn/training/model.py:178-183 | every element of the zero fill is 0 |
| `Tensors.Pad` | ffn/training/model.py:178-183 | padding grows each axis by its before and after widths |
| `Tensors.PadAt` | ffn/training/model.py:178-183 | inside the window the padded tensor holds the original element shifted back by the before widths; outside it holds 0 |
| `Tensors.WindowSplit` | ffn/training/model.py:178-183 | a position is in the padded window iff its outermost index is within that axis's window and the rest is within the inner window; the unpadded index shifts each axis separately |
| `Tensors.PadNothing` | ffn/training/model.py:175-178 | padding by (0, 0) on every axis leaves a tensor unchanged |
| `SeedUpdate.PadSplit` | ffn/training/model.py:180-182 | an excess d is split into before + after = d with before <= after <= before + 1, so the odd cell goes after the centre |
| `SeedUpdate.Excess` | ffn/training/model.py:171-173 | the excess d of an axis is what the mask lacks of the seed: mask + d = seed, and d >= 0 for a valid record |
| `SeedUpdate.SeedPadding` | ffn/training/model.py:171-183 | five (before, after) pairs: (0,0) on batch and channel, and on the z, y, x tensor axes a centred split of the seed's excess over the mask on that axis |
| `SeedUpdate.PaddingFillsSeed` | ffn/training/model.py:171-183 | the padded update's extent equals the seed's on every axis, batch and channel unchanged |
| `SeedUpdate.UpdateSeed` | ffn/training/model.py:169-184 | the updated seed has the seed's shape |
| `SeedUpdate.UpdateSeedAt` | ffn/training/model.py:169-184 | each element of the result is seed plus update (shifted back by the before widths) inside the update's window and the seed unchanged outside it, in both branches |
| `SeedUpdate.UpdateSeedCentred` | ffn/training/model.py:171-184 | the window starts at (dz//2, dy//2, dx//2) on the z, y, x axes and at 0 on batch and channel; inside it element [b,z,y,x,c] is seed plus update[b, z-dz//2, y-dy//2, x-dx//2, c], outside it is the seed |
| `SeedUpdate.UpdateSeedWithoutPadding` | ffn/training/model.py:175-176 | when seed and mask sizes agree the result is the elementwise sum seed + update, and padding would leave the update unchanged, so the shortcut agrees with the padded branch |

## Left out

- Loss set-up (`set_up_sigmoid_pixelwise_loss`): floating-point sigmoid cross-entropy, mean reduction and the NaN/Inf check happen inside TensorFlow.
- Optimizer set-up (`set_up_optimizer`): the optimizer comes from an external factory; gradients, float clipping, histogram summaries and control dependencies are TensorFlow operations.
- `show_center_slice`, `add_summaries` (a no-op) and `define_tf_graph` (abstract, it only raises): summary images and graph construction belong to TensorFlow and to subclasses.
- The global step counter, the `tf.placeholder` inputs and the `set_shape` side effect: foreign library state. `SetInputShapes` returns the shapes that would be bound instead.
- `labels`, `loss_weights`, `logits` and the summary image list: fields only the left-out TensorFlow code uses.
- The assertion that `dim` is set: `dim` is a constructor argument of type `int`, so it cannot be missing.
- A seed smaller than the mask on some axis: the source does not check it; `ModelInfo.Valid` excludes it, as it does vectors that are not of length 3.
- Element values are integers, not 32-bit floats: only the indexing and the additions are modelled, not rounding.
- UpdateSeed: requires the update's batch and channel extents to equal the seed's; TensorFlow's broadcasting of other shapes is not modelled.
- UpdateSeed: is a pure function; when the caller passes a mutable NumPy array, `seed += ...` also changes the caller's array in place, and that aliasing is not modelled.
- The spatial sizes are natural numbers and the deltas integers; the source stores both as NumPy arrays and does not restrict them.
