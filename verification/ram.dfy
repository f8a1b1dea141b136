/**
 * RAM estimate: a liveness-based peak-memory planner for a sequential graph.
 *
 * The planner walks the layers in order, keeps a pool (tensor index -> bytes)
 * of the activations that are resident, admits every non-constant tensor a
 * layer touches, records the peak of the pool total, and then drops every
 * entry that no later layer references.
 *
 * The reference definition next to it is interval liveness: while layer i
 * runs, tensor x is resident iff x is referenced by some layer j <= i and by
 * some layer k >= i. The planner is proved to compute the maximum, over all
 * layers, of the total size of that resident set.
 */
module Ram {
  import opened Wrappers
  import opened Tensors

  // ---------------------------------------------------------------------
  // Sum of the values of a pool
  // ---------------------------------------------------------------------

  /** Sum of all values of a map, in no particular order. */
  ghost function MapSum(m: map<nat, nat>): nat
    decreases |m.Keys|
  {
    if m.Keys == {} then 0
    else
      var k :| k in m.Keys;
      m[k] + MapSum(m - {k})
  }

  /** Any key can be taken out first: the sum does not depend on the order. */
  lemma {:induction false} MapSumRemove(m: map<nat, nat>, k: nat)
    requires k in m
    ensures MapSum(m) == m[k] + MapSum(m - {k})
    decreases |m.Keys|
  {
    var j :| j in m.Keys && MapSum(m) == m[j] + MapSum(m - {j});
    if j != k {
      MapSumRemove(m - {j}, k);
      MapSumRemove(m - {k}, j);
      assert m - {j} - {k} == m - {k} - {j};
    }
  }

  /** A pool of two entries sums to their two sizes. */
  lemma MapSumPair(m: map<nat, nat>, a: nat, b: nat)
    requires a != b && m.Keys == {a, b}
    ensures MapSum(m) == m[a] + m[b]
  {
    MapSumRemove(m, a);
    var rest := m - {a};
    assert rest.Keys == {b};
    MapSumRemove(rest, b);
    assert (rest - {b}).Keys == {};
  }

  /** A sub-pool (same values on fewer keys) never sums to more. */
  lemma {:induction false} MapSumSubmap(a: map<nat, nat>, b: map<nat, nat>)
    requires forall x :: x in a ==> x in b && a[x] == b[x]
    ensures MapSum(a) <= MapSum(b)
    decreases |b.Keys|
  {
    if b.Keys == {} {
      assert a.Keys == {};
    } else {
      var k :| k in b.Keys;
      MapSumRemove(b, k);
      if k in a {
        MapSumRemove(a, k);
        MapSumSubmap(a - {k}, b - {k});
      } else {
        MapSumSubmap(a, b - {k});
      }
    }
  }

  /** sum(memory_pool.values()), one entry at a time. */
  method PoolTotal(pool: map<nat, nat>) returns (total: nat)
    ensures total == MapSum(pool)
  {
    total := 0;
    var rest := pool;
    while rest.Keys != {}
      invariant total + MapSum(rest) == MapSum(pool)
      decreases |rest.Keys|
    {
      var k :| k in rest.Keys;
      MapSumRemove(rest, k);
      total := total + rest[k];
      rest := rest - {k};
    }
  }

  // ---------------------------------------------------------------------
  // Which tensors live in RAM, and how large they are
  // ---------------------------------------------------------------------

  /** The non-constant tensors carrying index idx, in list order. */
  function RamTensorsWithIdx(tensors: seq<Tensor>, idx: nat): (c: seq<Tensor>)
    ensures forall t :: t in c ==> t in tensors && t.idx == idx && !t.isConst
    ensures forall i :: 0 <= i < |tensors| && tensors[i].idx == idx && !tensors[i].isConst ==> tensors[i] in c
  {
    if tensors == [] then []
    else
      var head := if tensors[0].idx == idx && !tensors[0].isConst then [tensors[0]] else [];
      head + RamTensorsWithIdx(tensors[1..], idx)
  }

  /**
   * The size the pool records for index x when x is first admitted: the
   * size of the first non-constant tensor with that index, or nothing when
   * there is none (constants and unknown indices never enter the pool).
   */
  function RamSlot(tensors: seq<Tensor>, x: nat): Option<nat>
  {
    var c := RamTensorsWithIdx(tensors, x);
    if c == [] then None else Some(TensorSize(c[0]))
  }

  /**
   * Index x gets a pool entry iff some non-constant tensor carries it, and
   * the entry is that tensor's size.
   */
  lemma RamSlotCharacterised(tensors: seq<Tensor>, x: nat)
    ensures RamSlot(tensors, x).Some?
        <==> exists i :: 0 <= i < |tensors| && tensors[i].idx == x && !tensors[i].isConst
    ensures RamSlot(tensors, x).Some? ==>
      exists t :: t in tensors && t.idx == x && !t.isConst && RamSlot(tensors, x).value == TensorSize(t)
  {
    var c := RamTensorsWithIdx(tensors, x);
    if c != [] {
      assert c[0] in c;
      var i :| 0 <= i < |tensors| && tensors[i] == c[0];
    }
  }

  // ---------------------------------------------------------------------
  // Interval liveness: the reference definition
  // ---------------------------------------------------------------------

  /** Some layer at a position in [lo, hi) references x. */
  ghost predicate ReferencedIn(layers: seq<Layer>, lo: int, hi: int, x: nat)
  {
    exists j :: lo <= j < hi && 0 <= j < |layers| && x in Refs(layers[j])
  }

  ghost function AllRefs(layers: seq<Layer>): set<nat>
  {
    set j, x | 0 <= j < |layers| && x in Refs(layers[j]) :: x
  }

  /**
   * The RAM tensors referenced by some layer before position a and by some
   * layer at or after position b, each with its size.
   */
  ghost function Resident(tensors: seq<Tensor>, layers: seq<Layer>, a: int, b: int): map<nat, nat>
  {
    map x | x in AllRefs(layers) && ReferencedIn(layers, 0, a, x) && ReferencedIn(layers, b, |layers|, x)
                && RamSlot(tensors, x).Some?
          :: RamSlot(tensors, x).value
  }

  /** What is resident while layer i runs: touched at or before i and at or after i. */
  ghost function LiveAt(tensors: seq<Tensor>, layers: seq<Layer>, i: int): map<nat, nat>
  {
    Resident(tensors, layers, i + 1, i)
  }

  /** What is carried into layer i: touched before i and still needed at or after i. */
  ghost function CarriedInto(tensors: seq<Tensor>, layers: seq<Layer>, i: int): map<nat, nat>
  {
    Resident(tensors, layers, i, i)
  }

  /** The distinct RAM tensors one layer touches, with their sizes. */
  ghost function Footprint(tensors: seq<Tensor>, l: Layer): map<nat, nat>
  {
    map x | x in Refs(l) && RamSlot(tensors, x).Some? :: RamSlot(tensors, x).value
  }

  function Max(a: nat, b: nat): nat
  {
    if a >= b then a else b
  }

  /** The largest element of a list of totals, 0 for an empty list. */
  function PeakOf(totals: seq<nat>): nat
  {
    if totals == [] then 0 else Max(PeakOf(totals[..|totals| - 1]), totals[|totals| - 1])
  }

  /** The resident total of every layer, in execution order. */
  ghost function LiveTotals(tensors: seq<Tensor>, layers: seq<Layer>): (totals: seq<nat>)
    ensures |totals| == |layers|
  {
    seq(|layers|, i requires 0 <= i < |layers| => MapSum(LiveAt(tensors, layers, i)))
  }

  /** Reference definition of the RAM estimate: the largest resident total over all layers. */
  ghost function PeakRam(tensors: seq<Tensor>, layers: seq<Layer>): nat
  {
    PeakOf(LiveTotals(tensors, layers))
  }

  // ---------------------------------------------------------------------
  // Properties of the reference definition
  // ---------------------------------------------------------------------

  /** Constant tensors never enter the pool; every entry is the size of a non-constant tensor with that index. */
  lemma PoolHoldsOnlyActivations(tensors: seq<Tensor>, layers: seq<Layer>, a: int, b: int, x: nat)
    requires x in Resident(tensors, layers, a, b)
    ensures exists t :: t in tensors && t.idx == x && !t.isConst && Resident(tensors, layers, a, b)[x] == TensorSize(t)
  {
    var c := RamTensorsWithIdx(tensors, x);
    assert c[0] in c;
  }

  /**
   * After layer i is processed, the pool holds only indices some later layer
   * references. This only unfolds CarriedInto; that the planner's pool is
   * CarriedInto(i + 1) after eviction is EvictReachesCarried and PlannerStep.
   */
  lemma CarriedOnlyFuture(tensors: seq<Tensor>, layers: seq<Layer>, i: nat, x: nat)
    requires x in CarriedInto(tensors, layers, i + 1)
    ensures exists k :: i < k < |layers| && x in Refs(layers[k])
  {
  }

  /** Extending the list of totals never lowers the peak. */
  lemma {:induction false} PeakOfPrefix(totals: seq<nat>, n: nat)
    requires n <= |totals|
    ensures PeakOf(totals[..n]) <= PeakOf(totals)
    decreases |totals|
  {
    if n < |totals| {
      var last := |totals| - 1;
      assert totals[..last][..n] == totals[..n];
      PeakOfPrefix(totals[..last], n);
    } else {
      assert totals[..n] == totals;
    }
  }

  /** The peak is at least every total ... */
  lemma {:induction false} PeakOfBounds(totals: seq<nat>, i: nat)
    requires i < |totals|
    ensures totals[i] <= PeakOf(totals)
    decreases |totals|
  {
    var last := |totals| - 1;
    if i < last {
      PeakOfBounds(totals[..last], i);
    }
  }

  /** ... and, for a non-empty list, equal to one of them. */
  lemma {:induction false} PeakOfAttained(totals: seq<nat>)
    requires |totals| > 0
    ensures exists i :: 0 <= i < |totals| && PeakOf(totals) == totals[i]
    decreases |totals|
  {
    var last := |totals| - 1;
    if last > 0 && PeakOf(totals[..last]) >= totals[last] {
      PeakOfAttained(totals[..last]);
      var i :| 0 <= i < last && PeakOf(totals[..last]) == totals[..last][i];
      assert PeakOf(totals) == totals[i];
    } else {
      assert PeakOf(totals) == totals[last];
    }
  }

  /** Entry i of the list of totals is the resident total of layer i. */
  lemma LiveTotalsAt(tensors: seq<Tensor>, layers: seq<Layer>, i: nat)
    requires i < |layers|
    ensures LiveTotals(tensors, layers)[i] == MapSum(LiveAt(tensors, layers, i))
  {
  }

  /** The estimate is the resident total of some layer, and no layer has a larger one. */
  lemma PeakRamIsLargestResidentTotal(tensors: seq<Tensor>, layers: seq<Layer>)
    ensures forall i :: 0 <= i < |layers| ==> MapSum(LiveAt(tensors, layers, i)) <= PeakRam(tensors, layers)
    ensures |layers| > 0 ==>
      exists i :: 0 <= i < |layers| && PeakRam(tensors, layers) == MapSum(LiveAt(tensors, layers, i))
    ensures |layers| == 0 ==> PeakRam(tensors, layers) == 0
  {
    var totals := LiveTotals(tensors, layers);
    assert PeakRam(tensors, layers) == PeakOf(totals);
    forall i | 0 <= i < |layers| ensures MapSum(LiveAt(tensors, layers, i)) <= PeakRam(tensors, layers) {
      PeakOfBounds(totals, i);
      LiveTotalsAt(tensors, layers, i);
    }
    if |layers| > 0 {
      PeakOfAttained(totals);
      var i :| 0 <= i < |totals| && PeakOf(totals) == totals[i];
      LiveTotalsAt(tensors, layers, i);
    }
  }

  /**
   * A layer's inputs and outputs are co-resident: the peak covers the sum
   * of the distinct non-constant tensors referenced by any single layer.
   */
  lemma PeakRamCoversEveryLayer(tensors: seq<Tensor>, layers: seq<Layer>, i: nat)
    requires i < |layers|
    ensures MapSum(Footprint(tensors, layers[i])) <= PeakRam(tensors, layers)
  {
    var f, live := Footprint(tensors, layers[i]), LiveAt(tensors, layers, i);
    forall x | x in f ensures x in live && f[x] == live[x] {
      assert ReferencedIn(layers, 0, i + 1, x) && ReferencedIn(layers, i, |layers|, x);
      assert x in AllRefs(layers);
    }
    MapSumSubmap(f, live);
    PeakOfBounds(LiveTotals(tensors, layers), i);
  }

  /** A graph of a single layer needs exactly that layer's footprint. */
  lemma SingleLayerPeak(tensors: seq<Tensor>, l: Layer)
    ensures PeakRam(tensors, [l]) == MapSum(Footprint(tensors, l))
  {
    var live, f := LiveAt(tensors, [l], 0), Footprint(tensors, l);
    forall x | x in f ensures x in live {
      assert [l][0] == l;
      assert ReferencedIn([l], 0, 1, x);
      assert x in AllRefs([l]);
    }
    assert live == f;
    assert LiveTotals(tensors, [l]) == [MapSum(f)];
    assert [MapSum(f)][..0] == [];
    assert PeakOf([MapSum(f)]) == Max(PeakOf([]), MapSum(f));
  }

  /** The set of tensor indices a layer touches, ignoring order and repetition. */
  function RefSet(l: Layer): set<nat>
  {
    set x | x in Refs(l)
  }

  /**
   * The order of a layer's own inputs and outputs (and repetitions in them)
   * does not affect the estimate; only the layer order does.
   */
  lemma PeakRamIgnoresOrderWithinLayers(tensors: seq<Tensor>, a: seq<Layer>, b: seq<Layer>)
    requires |a| == |b|
    requires forall i :: 0 <= i < |a| ==> RefSet(a[i]) == RefSet(b[i])
    ensures PeakRam(tensors, a) == PeakRam(tensors, b)
  {
    forall j, x | 0 <= j < |a| ensures x in Refs(a[j]) <==> x in Refs(b[j]) {
      assert x in Refs(a[j]) <==> x in RefSet(a[j]);
      assert x in Refs(b[j]) <==> x in RefSet(b[j]);
    }
    assert AllRefs(a) == AllRefs(b);
    forall i | 0 <= i < |a| ensures LiveAt(tensors, a, i) == LiveAt(tensors, b, i) {
      forall x
        ensures (ReferencedIn(a, 0, i + 1, x) <==> ReferencedIn(b, 0, i + 1, x))
             && (ReferencedIn(a, i, |a|, x) <==> ReferencedIn(b, i, |b|, x))
      {
      }
    }
    assert LiveTotals(tensors, a) == LiveTotals(tensors, b);
  }

  // ---------------------------------------------------------------------
  // The planner
  // ---------------------------------------------------------------------

  /**
   * Admit the non-constant tensors carrying index idx: the first one is
   * inserted with its size unless idx is already in the pool.
   */
  method AdmitIndex(tensors: seq<Tensor>, pool: map<nat, nat>, idx: nat) returns (grown: map<nat, nat>)
    ensures grown == if idx in pool || RamSlot(tensors, idx).None? then pool
                     else pool[idx := RamSlot(tensors, idx).value]
  {
    grown := pool;
    var inRamTensors := RamTensorsWithIdx(tensors, idx);
    for m := 0 to |inRamTensors|
      invariant grown == if m == 0 || idx in pool then pool else pool[idx := TensorSize(inRamTensors[0])]
    {
      var tensor := inRamTensors[m];
      assert tensor in inRamTensors;
      if tensor.idx !in grown {
        grown := grown[tensor.idx := TensorSize(tensor)];
      }
    }
  }

  /** The indices in refs that name a non-constant tensor. */
  ghost function RamRefs(tensors: seq<Tensor>, refs: seq<nat>): set<nat>
  {
    set x | x in refs && RamSlot(tensors, x).Some?
  }

  /** Extending the scanned prefix of refs by one index adds at most that index. */
  lemma RamRefsExtend(tensors: seq<Tensor>, refs: seq<nat>, k: nat)
    requires k < |refs|
    ensures RamRefs(tensors, refs[..k + 1])
         == RamRefs(tensors, refs[..k]) + (if RamSlot(tensors, refs[k]).Some? then {refs[k]} else {})
  {
    assert refs[..k + 1] == refs[..k] + [refs[k]];
  }

  /**
   * Admit every non-constant tensor that refs names into the pool. An index
   * already in the pool is neither re-inserted nor resized.
   */
  method AdmitLayer(tensors: seq<Tensor>, pool: map<nat, nat>, refs: seq<nat>) returns (grown: map<nat, nat>)
    ensures grown.Keys == pool.Keys + RamRefs(tensors, refs)
    ensures forall x :: x in pool ==> grown[x] == pool[x]
    ensures forall x :: x in grown && x !in pool ==> RamSlot(tensors, x) == Some(grown[x])
  {
    grown := pool;
    for k := 0 to |refs|
      invariant grown.Keys == pool.Keys + RamRefs(tensors, refs[..k])
      invariant forall x :: x in pool ==> grown[x] == pool[x]
      invariant forall x :: x in grown && x !in pool ==> RamSlot(tensors, x) == Some(grown[x])
    {
      grown := AdmitIndex(tensors, grown, refs[k]);
      RamRefsExtend(tensors, refs, k);
    }
    assert refs[..|refs|] == refs;
  }

  /** While layer i runs, x is resident iff it was carried in or layer i itself touches it as an activation. */
  lemma LiveAtMembership(tensors: seq<Tensor>, layers: seq<Layer>, i: nat, x: nat)
    requires i < |layers|
    ensures x in LiveAt(tensors, layers, i)
        <==> x in CarriedInto(tensors, layers, i) || x in RamRefs(tensors, Refs(layers[i]))
  {
    if x in LiveAt(tensors, layers, i) {
      var j :| 0 <= j < i + 1 && 0 <= j < |layers| && x in Refs(layers[j]);
      if j < i {
        assert ReferencedIn(layers, 0, i, x);
      }
    }
    if x in RamRefs(tensors, Refs(layers[i])) {
      assert ReferencedIn(layers, 0, i + 1, x) && ReferencedIn(layers, i, |layers|, x);
      assert x in AllRefs(layers);
    }
  }

  /** Admitting the current layer into the carried pool yields exactly what is live at that layer. */
  lemma AdmitReachesLiveAt(tensors: seq<Tensor>, layers: seq<Layer>, i: nat, grown: map<nat, nat>)
    requires i < |layers|
    requires grown.Keys == CarriedInto(tensors, layers, i).Keys + RamRefs(tensors, Refs(layers[i]))
    requires forall x :: x in CarriedInto(tensors, layers, i) ==> grown[x] == CarriedInto(tensors, layers, i)[x]
    requires forall x :: x in grown && x !in CarriedInto(tensors, layers, i) ==> RamSlot(tensors, x) == Some(grown[x])
    ensures grown == LiveAt(tensors, layers, i)
  {
    var live := LiveAt(tensors, layers, i);
    forall x ensures x in grown <==> x in live {
      LiveAtMembership(tensors, layers, i, x);
    }
    assert forall x :: x in live ==> grown[x] == live[x];
  }

  /** Every tensor index referenced by the given layers. */
  function UsedIndices(rest: seq<Layer>): set<nat>
  {
    set l, idx | l in rest && idx in Refs(l) :: idx
  }

  /** The entries of a pool whose index is in keep. */
  function Retain(pool: map<nat, nat>, keep: set<nat>): (kept: map<nat, nat>)
    ensures kept.Keys == pool.Keys * keep
    ensures forall x :: x in kept ==> kept[x] == pool[x]
  {
    map idx | idx in pool && idx in keep :: pool[idx]
  }

  /** The indices gathered from the remaining layers are exactly those referenced after position i. */
  lemma UsedIndicesAreLaterRefs(layers: seq<Layer>, i: nat, x: nat)
    requires i < |layers|
    ensures x in UsedIndices(layers[i + 1..]) <==> ReferencedIn(layers, i + 1, |layers|, x)
  {
    if x in UsedIndices(layers[i + 1..]) {
      var l :| l in layers[i + 1..] && x in Refs(l);
      var j :| 0 <= j < |layers[i + 1..]| && layers[i + 1..][j] == l;
      assert layers[i + 1 + j] == l;
    }
    if ReferencedIn(layers, i + 1, |layers|, x) {
      var k :| i + 1 <= k < |layers| && x in Refs(layers[k]);
      assert layers[i + 1..][k - i - 1] == layers[k];
    }
  }

  /** Dropping what no later layer references turns the live pool of layer i into the pool carried into i + 1. */
  lemma EvictReachesCarried(tensors: seq<Tensor>, layers: seq<Layer>, i: nat)
    requires i < |layers|
    ensures Retain(LiveAt(tensors, layers, i), UsedIndices(layers[i + 1..])) == CarriedInto(tensors, layers, i + 1)
  {
    var kept := Retain(LiveAt(tensors, layers, i), UsedIndices(layers[i + 1..]));
    var carried := CarriedInto(tensors, layers, i + 1);
    forall x ensures x in kept <==> x in carried {
      UsedIndicesAreLaterRefs(layers, i, x);
      if ReferencedIn(layers, i + 1, |layers|, x) {
        assert ReferencedIn(layers, i, |layers|, x);
      }
    }
  }

  /** Taking one more total into the running peak. */
  lemma PeakOfStep(totals: seq<nat>, k: nat)
    requires k < |totals|
    ensures PeakOf(totals[..k + 1]) == Max(PeakOf(totals[..k]), totals[k])
  {
    assert totals[..k + 1][..k] == totals[..k];
  }

  /**
   * One iteration of the planner: what it admits is the live pool of layer
   * i, whose total is the i-th resident total, and what it keeps is the pool
   * carried into layer i + 1.
   */
  lemma PlannerStep(tensors: seq<Tensor>, layers: seq<Layer>, i: nat, grown: map<nat, nat>)
    requires i < |layers|
    requires grown == LiveAt(tensors, layers, i)
    ensures MapSum(grown) == LiveTotals(tensors, layers)[i]
    ensures PeakOf(LiveTotals(tensors, layers)[..i + 1])
         == Max(PeakOf(LiveTotals(tensors, layers)[..i]), MapSum(grown))
    ensures Retain(grown, UsedIndices(layers[i + 1..])) == CarriedInto(tensors, layers, i + 1)
  {
    PeakOfStep(LiveTotals(tensors, layers), i);
    EvictReachesCarried(tensors, layers, i);
  }

  /** estimate_ram: the peak of the pool total over the layer sequence. */
  method EstimateRam(tensors: seq<Tensor>, layers: seq<Layer>) returns (ramBytes: nat)
    ensures ramBytes == PeakRam(tensors, layers)
    ensures layers == [] ==> ramBytes == 0
  {
    var memoryPool: map<nat, nat> := map[];
    var peakRam: nat := 0;
    assert memoryPool == CarriedInto(tensors, layers, 0);
    for layerNb := 0 to |layers|
      invariant memoryPool == CarriedInto(tensors, layers, layerNb)
      invariant peakRam == PeakOf(LiveTotals(tensors, layers)[..layerNb])
    {
      memoryPool := AdmitLayer(tensors, memoryPool, Refs(layers[layerNb]));
      AdmitReachesLiveAt(tensors, layers, layerNb, memoryPool);
      PlannerStep(tensors, layers, layerNb, memoryPool);
      var poolBytes := PoolTotal(memoryPool);
      peakRam := Max(peakRam, poolBytes);
      var usedIndices := UsedIndices(layers[layerNb + 1..]);
      memoryPool := Retain(memoryPool, usedIndices);
    }
    ramBytes := peakRam;
    assert LiveTotals(tensors, layers)[..|layers|] == LiveTotals(tensors, layers);
  }
}
