/**
 * ROM estimate: only constant tensors (weights, biases, a reshape's constant
 * shape operand) occupy non-volatile storage.
 */
module Rom {
  import opened Tensors

  /** Bytes a single tensor contributes to ROM. */
  function RomShare(t: Tensor): nat
  {
    if t.isConst then TensorSize(t) else 0
  }

  /** Total size of the constant tensors of a list. */
  function ConstBytes(tensors: seq<Tensor>): nat
  {
    if tensors == [] then 0 else RomShare(tensors[0]) + ConstBytes(tensors[1..])
  }

  /** The ROM total splits over a concatenation. */
  lemma {:induction false} ConstBytesConcat(a: seq<Tensor>, b: seq<Tensor>)
    ensures ConstBytes(a + b) == ConstBytes(a) + ConstBytes(b)
  {
    if a == [] {
      assert a + b == b;
    } else {
      assert (a + b)[1..] == a[1..] + b;
      ConstBytesConcat(a[1..], b);
    }
  }

  /** Appending a non-constant tensor leaves the estimate unchanged; appending a constant one adds its size. */
  lemma ConstBytesAppend(tensors: seq<Tensor>, t: Tensor)
    ensures !t.isConst ==> ConstBytes(tensors + [t]) == ConstBytes(tensors)
    ensures t.isConst ==> ConstBytes(tensors + [t]) == ConstBytes(tensors) + TensorSize(t)
  {
    ConstBytesConcat(tensors, [t]);
    assert ConstBytes([t]) == RomShare(t) + ConstBytes([]);
  }

  /** Exchanging the two halves of a split list leaves the total unchanged. */
  lemma ConstBytesSwap(a: seq<Tensor>, b: seq<Tensor>)
    ensures ConstBytes(a + b) == ConstBytes(b + a)
  {
    ConstBytesConcat(a, b);
    ConstBytesConcat(b, a);
  }

  /** Removing one common element from two equal multisets leaves them equal. */
  lemma MultisetCancel<T>(x: T, p: multiset<T>, q: multiset<T>)
    requires multiset{x} + p == multiset{x} + q
    ensures p == q
  {
    forall e ensures p[e] == q[e] {
      assert (multiset{x} + p)[e] == (multiset{x} + q)[e];
    }
  }

  /** The total does not depend on the order of the tensor list: any permutation gives the same estimate. */
  lemma {:induction false} ConstBytesPerm(a: seq<Tensor>, b: seq<Tensor>)
    requires multiset(a) == multiset(b)
    ensures ConstBytes(a) == ConstBytes(b)
  {
    if a == [] {
      assert |b| == |multiset(b)| == 0;
    } else {
      var x := a[0];
      assert x in multiset(b);
      var j :| 0 <= j < |b| && b[j] == x;
      var rest := b[..j] + b[j + 1..];
      assert b == b[..j] + ([x] + b[j + 1..]);
      assert a == [x] + a[1..];
      assert multiset(b) == multiset{x} + multiset(rest);
      assert multiset(a) == multiset{x} + multiset(a[1..]);
      MultisetCancel(x, multiset(a[1..]), multiset(rest));
      ConstBytesPerm(a[1..], rest);
      ConstBytesConcat(b[..j], [x] + b[j + 1..]);
      assert ([x] + b[j + 1..])[1..] == b[j + 1..];
      ConstBytesConcat(b[..j], b[j + 1..]);
    }
  }

  function ConstOnly(tensors: seq<Tensor>): (c: seq<Tensor>)
    ensures forall i :: 0 <= i < |c| ==> c[i].isConst
  {
    if tensors == [] then []
    else if tensors[0].isConst then [tensors[0]] + ConstOnly(tensors[1..])
    else ConstOnly(tensors[1..])
  }

  /** Dropping every non-constant tensor does not change the estimate. */
  lemma {:induction false} ConstBytesOnlyConstants(tensors: seq<Tensor>)
    ensures ConstBytes(ConstOnly(tensors)) == ConstBytes(tensors)
  {
    if tensors != [] {
      ConstBytesOnlyConstants(tensors[1..]);
      if tensors[0].isConst {
        assert ([tensors[0]] + ConstOnly(tensors[1..]))[1..] == ConstOnly(tensors[1..]);
      }
    }
  }

  /** estimate_rom: accumulate the size of every constant tensor in list order. */
  method EstimateRom(tensors: seq<Tensor>) returns (romBytes: nat)
    ensures romBytes == ConstBytes(tensors)
  {
    romBytes := 0;
    for i := 0 to |tensors|
      invariant romBytes == ConstBytes(tensors[..i])
    {
      var tensor := tensors[i];
      ConstBytesAppend(tensors[..i], tensor);
      assert tensors[..i + 1] == tensors[..i] + [tensor];
      if tensor.isConst {
        romBytes := romBytes + TensorSize(tensor);
      }
    }
    assert tensors[..|tensors|] == tensors;
  }
}
