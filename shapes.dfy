/**
 * Tensor shapes of the seed and image inputs. Sizes are stored in (x, y, z)
 * order while tensors are laid out (batch, z, y, x, channel), so every shape
 * is the size vector reversed, between a batch and a channel extent.
 */
module Shapes {
  import opened Info

  /** `s` read back to front (Python's `s[::-1]`). */
  function Reverse<T>(s: seq<T>): (r: seq<T>)
    ensures |r| == |s|
    decreases |s|
  {
    if s == [] then [] else Reverse(s[1..]) + [s[0]]
  }

  lemma {:induction false} ReverseAt<T>(s: seq<T>, k: nat)
    requires k < |s|
    ensures Reverse(s)[k] == s[|s| - 1 - k]
    decreases |s|
  {
    if k < |s| - 1 {
      ReverseAt(s[1..], k);
    }
  }

  /** Reversing twice gives the vector back: a shape determines its (x, y, z) sizes. */
  lemma ReverseReverse<T>(s: seq<T>)
    ensures Reverse(Reverse(s)) == s
  {
    forall k | 0 <= k < |s| ensures Reverse(Reverse(s))[k] == s[k] {
      ReverseAt(Reverse(s), k);
      ReverseAt(s, |s| - 1 - k);
    }
  }

  /** A tensor's extents: batch, the spatial sizes as (z, y, x), then channels. */
  function TensorShape(batch: nat, sizeXyz: seq<nat>, channels: nat): (r: seq<nat>)
  {
    [batch] + Reverse(sizeXyz) + [channels]
  }

  lemma TensorShapeOfVector3(batch: nat, sizeXyz: seq<nat>, channels: nat)
    requires |sizeXyz| == 3
    ensures TensorShape(batch, sizeXyz, channels) ==
      [batch, sizeXyz[2], sizeXyz[1], sizeXyz[0], channels]
  {
    ReverseAt(sizeXyz, 0);
    ReverseAt(sizeXyz, 1);
    ReverseAt(sizeXyz, 2);
  }

  /**
   * The shape `set_input_shapes` binds to an input: the batch size (possibly
   * unknown), the size vector reversed, and one channel.
   */
  function InputShape(batch: Option<nat>, sizeXyz: seq<nat>): (r: seq<Option<nat>>)
    ensures |r| == |sizeXyz| + 2
    ensures r[0] == batch && r[|r| - 1] == Some(1)
    ensures forall i :: 1 <= i <= |sizeXyz| ==> r[i] == Some(sizeXyz[|sizeXyz| - i])
  {
    var spatial := Reverse(sizeXyz);
    var known := seq(|spatial|, i requires 0 <= i < |spatial| => Some(spatial[i]));
    forall i | 0 <= i < |sizeXyz| ensures known[i] == Some(sizeXyz[|sizeXyz| - 1 - i]) {
      ReverseAt(sizeXyz, i);
    }
    [batch] + known + [Some(1)]
  }

  /** For a 3-vector the input shape is [batch, z, y, x, 1]. */
  lemma InputShapeOfVector3(batch: Option<nat>, sizeXyz: seq<nat>)
    requires |sizeXyz| == 3
    ensures InputShape(batch, sizeXyz) ==
      [batch, Some(sizeXyz[2]), Some(sizeXyz[1]), Some(sizeXyz[0]), Some(1)]
  {
  }

  /** With a known batch size, the input shape is the tensor shape with one channel. */
  lemma InputShapeIsTensorShape(batch: nat, sizeXyz: seq<nat>)
    ensures var t := TensorShape(batch, sizeXyz, 1);
      InputShape(Some(batch), sizeXyz) == seq(|t|, i requires 0 <= i < |t| => Some(t[i]))
  {
  }
}
