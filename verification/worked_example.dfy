/**
 * The fully connected example from the estimator's documentation
 * (y = W'x + b): an int8 input of shape [1, 1024], int8 weights [10, 1024],
 * an int32 bias [10] and an int8 output [1, 10], used by one layer.
 */
module WorkedExample {
  import opened Wrappers
  import opened Tensors
  import opened Rom
  import opened Ram

  function FcTensors(): seq<Tensor>
  {
    [ Tensor(0, "x", [1, 1024], "int8", false),
      Tensor(1, "W", [10, 1024], "int8", true),
      Tensor(2, "b", [10], "int32", true),
      Tensor(3, "y", [1, 10], "int8", false) ]
  }

  function FcLayers(): seq<Layer>
  {
    [ Layer(0, "FullyConnected", [0, 1, 2], [3]) ]
  }

  /** ROM holds the weights and the bias: 10240 + 40 bytes. */
  lemma FcExampleRom()
    ensures ConstBytes(FcTensors()) == 10280
  {
    var ts := FcTensors();
    assert TensorSize(ts[1]) == 10240;
    assert TensorSize(ts[2]) == 40;
    assert ConstBytes(ts[3..]) == 0;
    assert ConstBytes(ts[2..]) == 40;
    assert ConstBytes(ts[1..]) == 10280;
  }

  /** Index 0 names the activation x. */
  lemma FcInputSlot()
    ensures RamSlot(FcTensors(), 0) == Some(1024)
  {
    var ts := FcTensors();
    assert TensorSize(ts[0]) == 1024;
  }

  /** Only the last tensor of the list carries index 3. */
  lemma FcOutputFilter()
    ensures RamTensorsWithIdx(FcTensors(), 3) == [FcTensors()[3]]
  {
    var ts := FcTensors();
    assert ts[1..][1..] == ts[2..] && ts[2..][1..] == ts[3..] && ts[3..][1..] == [];
    assert RamTensorsWithIdx(ts[3..], 3) == [ts[3]];
    assert RamTensorsWithIdx(ts[1..], 3) == [ts[3]];
  }

  /** Index 3 names the activation y. */
  lemma FcOutputSlot()
    ensures RamSlot(FcTensors(), 3) == Some(10)
  {
    var y := FcTensors()[3];
    assert y == Tensor(3, "y", [1, 10], "int8", false);
    assert TensorSize(y) == 10;
    FcOutputFilter();
  }

  /** Indices 1 and 2 name constants and never reach RAM. */
  lemma FcConstantSlots()
    ensures RamSlot(FcTensors(), 1) == None
    ensures RamSlot(FcTensors(), 2) == None
  {
    var ts := FcTensors();
    assert ts[1..][1..] == ts[2..] && ts[2..][1..] == ts[3..] && ts[3..][1..] == [];
    assert RamTensorsWithIdx(ts[3..], 1) == [] && RamTensorsWithIdx(ts[3..], 2) == [];
    assert RamTensorsWithIdx(ts[1..], 1) == [] && RamTensorsWithIdx(ts[1..], 2) == [];
  }

  /**
   * Whatever the tensors and the layer, if the layer touches indices 0 to 3
   * and only 0 and 3 name activations, its footprint holds exactly those two.
   */
  lemma FcFootprintKeys(ts: seq<Tensor>, l: Layer)
    requires Refs(l) == [0, 1, 2, 3]
    requires RamSlot(ts, 0).Some? && RamSlot(ts, 1).None? && RamSlot(ts, 2).None? && RamSlot(ts, 3).Some?
    ensures Footprint(ts, l).Keys == {0, 3}
  {
    var f := Footprint(ts, l);
    forall x ensures x in f <==> x == 0 || x == 3 {
      if x in f {
        assert x == 0 || x == 1 || x == 2 || x == 3;
      }
    }
  }

  /** Under the same conditions, with sizes 1024 and 10, the footprint totals 1034 bytes. */
  lemma FcFootprintTotal(ts: seq<Tensor>, l: Layer)
    requires Refs(l) == [0, 1, 2, 3]
    requires RamSlot(ts, 0) == Some(1024) && RamSlot(ts, 1).None? && RamSlot(ts, 2).None?
    requires RamSlot(ts, 3) == Some(10)
    ensures MapSum(Footprint(ts, l)) == 1034
  {
    FcFootprintKeys(ts, l);
    var f := Footprint(ts, l);
    assert f[0] == 1024 && f[3] == 10;
    MapSumPair(f, 0, 3);
  }

  /** RAM holds input and output together, the constants excluded: 1024 + 10 bytes. */
  lemma FcExampleRam()
    ensures PeakRam(FcTensors(), FcLayers()) == 1034
  {
    var ts, l := FcTensors(), FcLayers()[0];
    assert Refs(l) == [0, 1, 2, 3];
    FcInputSlot();
    FcOutputSlot();
    FcConstantSlots();
    FcFootprintTotal(ts, l);
    SingleLayerPeak(ts, l);
    assert FcLayers() == [l];
  }
}
