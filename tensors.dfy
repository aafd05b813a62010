/**
 * Dense integer tensors of any rank, as nested sequences, with the three
 * operations the seed update uses: a zero tensor, elementwise addition and
 * constant-zero padding (`tf.pad`) with a (before, after) pair per axis.
 */
module Tensors {

  datatype Tensor = Scalar(value: int) | Block(elems: seq<Tensor>)

  /** `t` is a rectangular tensor whose extents are `shape`, outermost first. */
  predicate HasShape(t: Tensor, shape: seq<nat>)
    decreases |shape|
  {
    if shape == [] then t.Scalar?
    else
      && t.Block?
      && |t.elems| == shape[0]
      && forall i :: 0 <= i < shape[0] ==> HasShape(t.elems[i], shape[1..])
  }

  /** `idx` addresses an element of a tensor of shape `shape`. */
  predicate InBounds(idx: seq<int>, shape: seq<nat>)
  {
    |idx| == |shape| && forall a :: 0 <= a < |idx| ==> 0 <= idx[a] < shape[a]
  }

  /** The element at `idx`; 0 for an index that does not address one. */
  function Get(t: Tensor, idx: seq<int>): (v: int)
    decreases |idx|
  {
    if idx == [] then (if t.Scalar? then t.value else 0)
    else if t.Block? && 0 <= idx[0] < |t.elems| then Get(t.elems[idx[0]], idx[1..])
    else 0
  }

  function Zeros(shape: seq<nat>): (r: Tensor)
    ensures HasShape(r, shape)
    decreases |shape|
  {
    if shape == [] then Scalar(0)
    else Block(seq(shape[0], _ => Zeros(shape[1..])))
  }

  lemma {:induction false} ZerosAt(shape: seq<nat>, idx: seq<int>)
    ensures Get(Zeros(shape), idx) == 0
    decreases |shape|
  {
    if shape != [] && idx != [] && 0 <= idx[0] < shape[0] {
      ZerosAt(shape[1..], idx[1..]);
    }
  }

  /** Elementwise sum of two tensors of the same shape. */
  function Add(a: Tensor, b: Tensor, shape: seq<nat>): (r: Tensor)
    requires HasShape(a, shape) && HasShape(b, shape)
    ensures HasShape(r, shape)
    decreases |shape|
  {
    if shape == [] then Scalar(a.value + b.value)
    else Block(seq(shape[0], i requires 0 <= i < shape[0] => Add(a.elems[i], b.elems[i], shape[1..])))
  }

  lemma {:induction false} AddAt(a: Tensor, b: Tensor, shape: seq<nat>, idx: seq<int>)
    requires HasShape(a, shape) && HasShape(b, shape) && InBounds(idx, shape)
    ensures Get(Add(a, b, shape), idx) == Get(a, idx) + Get(b, idx)
    decreases |shape|
  {
    if shape != [] {
      AddAt(a.elems[idx[0]], b.elems[idx[0]], shape[1..], idx[1..]);
    }
  }

  /** The extents after padding: each axis grows by its before and after widths. */
  function PaddedShape(shape: seq<nat>, pads: seq<(nat, nat)>): (r: seq<nat>)
    requires |pads| == |shape|
  {
    seq(|shape|, a requires 0 <= a < |shape| => pads[a].0 + shape[a] + pads[a].1)
  }

  /** `idx` falls where the unpadded tensor was placed. */
  predicate InWindow(idx: seq<int>, shape: seq<nat>, pads: seq<(nat, nat)>)
    requires |idx| == |shape| == |pads|
  {
    forall a :: 0 <= a < |idx| ==> pads[a].0 <= idx[a] < pads[a].0 + shape[a]
  }

  /** The index into the unpadded tensor that `idx` of the padded one comes from. */
  function Unpad(idx: seq<int>, pads: seq<(nat, nat)>): (r: seq<int>)
    requires |pads| == |idx|
  {
    seq(|idx|, a requires 0 <= a < |idx| => idx[a] - pads[a].0)
  }

  /** `t` with pads[a].0 zero slices before and pads[a].1 after it on every axis a. */
  function Pad(t: Tensor, shape: seq<nat>, pads: seq<(nat, nat)>): (r: Tensor)
    requires |pads| == |shape| && HasShape(t, shape)
    ensures HasShape(r, PaddedShape(shape, pads))
    decreases |shape|
  {
    if shape == [] then t
    else
      var inner := PaddedShape(shape[1..], pads[1..]);
      assert PaddedShape(shape, pads)[1..] == inner;
      var body := seq(shape[0], i requires 0 <= i < shape[0] => Pad(t.elems[i], shape[1..], pads[1..]));
      Block(seq(pads[0].0, _ => Zeros(inner)) + body + seq(pads[0].1, _ => Zeros(inner)))
  }

  /** The window test and the unpadded index split into the outermost axis and the rest. */
  lemma WindowSplit(idx: seq<int>, shape: seq<nat>, pads: seq<(nat, nat)>)
    requires |idx| == |shape| == |pads| > 0
    ensures InWindow(idx, shape, pads) <==>
      pads[0].0 <= idx[0] < pads[0].0 + shape[0] && InWindow(idx[1..], shape[1..], pads[1..])
    ensures Unpad(idx, pads) == [idx[0] - pads[0].0] + Unpad(idx[1..], pads[1..])
  {
    if pads[0].0 <= idx[0] < pads[0].0 + shape[0] && InWindow(idx[1..], shape[1..], pads[1..]) {
      forall a | 0 <= a < |idx| ensures pads[a].0 <= idx[a] < pads[a].0 + shape[a] {
        if a > 0 {
          assert idx[a] == idx[1..][a - 1];
        }
      }
    }
  }

  /**
   * Pointwise meaning of padding: inside the window the padded tensor holds
   * the element of `t` shifted back by the before widths, outside it holds 0.
   */
  lemma {:induction false} PadAt(t: Tensor, shape: seq<nat>, pads: seq<(nat, nat)>, idx: seq<int>)
    requires |pads| == |shape| && HasShape(t, shape)
    requires InBounds(idx, PaddedShape(shape, pads))
    ensures Get(Pad(t, shape, pads), idx) ==
      if InWindow(idx, shape, pads) then Get(t, Unpad(idx, pads)) else 0
    decreases |shape|
  {
    if shape == [] {
      assert Unpad(idx, pads) == [];
    } else {
      var i, rest := idx[0], idx[1..];
      var inner := PaddedShape(shape[1..], pads[1..]);
      assert PaddedShape(shape, pads)[1..] == inner;
      assert InBounds(rest, inner);
      var r := Pad(t, shape, pads);
      assert Get(r, idx) == Get(r.elems[i], rest);
      WindowSplit(idx, shape, pads);
      var b := pads[0].0;
      if i < b || i >= b + shape[0] {
        ZerosAt(inner, rest);
      } else {
        PadAt(t.elems[i - b], shape[1..], pads[1..], rest);
      }
    }
  }

  /** Padding by nothing on every axis leaves a tensor as it is. */
  lemma {:induction false} PadNothing(t: Tensor, shape: seq<nat>, pads: seq<(nat, nat)>)
    requires |pads| == |shape| && HasShape(t, shape)
    requires forall a :: 0 <= a < |pads| ==> pads[a] == (0, 0)
    ensures Pad(t, shape, pads) == t
    decreases |shape|
  {
    if shape != [] {
      var r := Pad(t, shape, pads);
      forall i | 0 <= i < shape[0] ensures r.elems[i] == t.elems[i] {
        PadNothing(t.elems[i], shape[1..], pads[1..]);
      }
      assert r.elems == t.elems;
    }
  }
}
