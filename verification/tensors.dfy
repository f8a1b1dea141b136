/**
 * The tensor/layer snapshot consumed by the resource estimators, the fixed
 * dtype width table, and the byte size of one tensor.
 */
module Tensors {

  /** One value flowing through the graph (the `MyTensor` record). */
  datatype Tensor = Tensor(idx: nat, name: string, shape: seq<nat>, dtype: string, isConst: bool)

  /** One computational step; its position in the layer list is its execution order. */
  datatype Layer = Layer(idx: nat, name: string, inputs: seq<nat>, outputs: seq<nat>)

  /** The tensor indices a layer touches: its inputs followed by its outputs. */
  function Refs(l: Layer): seq<nat>
  {
    l.inputs + l.outputs
  }

  /** Byte width of every dtype name the estimator knows. */
  const DTYPE_SIZE: map<string, nat> := map[
    "float32" := 4,
    "float16" := 2,
    "float8" := 1,
    "int64" := 8,
    "int32" := 4,
    "int16" := 2,
    "int8" := 1,
    "uint64" := 8,
    "uint32" := 4,
    "uint16" := 2,
    "uint8" := 1
  ]

  /** Width lookup with a silent default of 0 bytes for a name missing from the table. */
  function DTypeSize(dtype: string): (w: nat)
    ensures w == 0 <==> dtype !in DTYPE_SIZE
    ensures w in {0, 1, 2, 4, 8}
    ensures dtype in DTYPE_SIZE ==> w == DTYPE_SIZE[dtype]
  {
    if dtype in DTYPE_SIZE then DTYPE_SIZE[dtype] else 0
  }

  /** Product of all dimensions; the empty product is 1. */
  function Product(shape: seq<nat>): nat
  {
    if shape == [] then 1 else shape[0] * Product(shape[1..])
  }

  predicate HasZeroDim(shape: seq<nat>)
  {
    exists i :: 0 <= i < |shape| && shape[i] == 0
  }

  /** The product vanishes exactly when some dimension is zero. */
  lemma {:induction false} ProductZeroIff(shape: seq<nat>)
    ensures Product(shape) == 0 <==> HasZeroDim(shape)
  {
    if shape != [] {
      ProductZeroIff(shape[1..]);
      if HasZeroDim(shape[1..]) {
        var i :| 0 <= i < |shape[1..]| && shape[1..][i] == 0;
        assert shape[i + 1] == 0;
      }
      if HasZeroDim(shape) && shape[0] != 0 {
        var i :| 0 <= i < |shape| && shape[i] == 0;
        assert shape[1..][i - 1] == 0;
      }
    }
  }

  /** Appending a dimension multiplies the element count by it (left-to-right product). */
  lemma {:induction false} ProductAppend(shape: seq<nat>, d: nat)
    ensures Product(shape + [d]) == Product(shape) * d
  {
    if shape == [] {
      assert [] + [d] == [d];
    } else {
      assert (shape + [d])[1..] == shape[1..] + [d];
      ProductAppend(shape[1..], d);
    }
  }

  /** Size of a tensor in bytes: element count times dtype width. */
  function TensorSize(t: Tensor): (size: nat)
    ensures t.shape == [] ==> size == DTypeSize(t.dtype)
    ensures size == 0 <==> HasZeroDim(t.shape) || t.dtype !in DTYPE_SIZE
  {
    ProductZeroIff(t.shape);
    Product(t.shape) * DTypeSize(t.dtype)
  }
}
