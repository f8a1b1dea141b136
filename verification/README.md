# ESD4ML resource estimation and posterior handling, in Dafny

This project models two parts of the ESD4ML keyword-spotting course project.

**The resource estimator** (`1_train/student/estimate.py`) works on a snapshot of a quantised model. The snapshot is a list of tensors (index, name, shape, dtype, constant flag) and a list of layers (index, name, input indices, output indices) in execution order. The estimator computes:

- the byte size of a tensor: element count times dtype width, with an unknown dtype counting as 0 bytes;
- closed-form multiply-accumulate counts for Conv2D, depthwise Conv2D and fully connected layers, each guarded by the source's shape assertions;
- the ROM estimate: the total size of the constant tensors;
- the RAM estimate: a greedy pool planner. Layer by layer, it admits the non-constant tensors a layer touches, records the peak of the pool total, and evicts every tensor that no later layer references.

**The posterior handler** (`3_run/student/posterior/posterior.cc`) is a stateful C++ filter over the classifier's per-category uint8 scores. It keeps:

- a ring buffer of the last `historyLength` score vectors;
- a moving sum per category over that buffer;
- the index of the top category;
- a per-category suppression countdown.

A detection is reported when the top category's sum reaches the threshold and that category is not suppressed.

Modules:

- `Wrappers`: `Option` and `Result`.
- `Tensors`: the `Tensor` and `Layer` records, the dtype width table, `TensorSize`.
- `Macs`: the three MAC counts, returning `Result<int, MacError>`. A shape list of the wrong length is `ValueError`, as Python's tuple unpacking raises. A failed `assert` is `BatchSizeAssertion` or `ShapeAssertion`; both are `AssertionError` in the source.
- `Rom`: `EstimateRom`, a loop proved equal to `ConstBytes`, the recursive sum over constant tensors.
- `Ram`: `EstimateRam`, the planner loop over a `map<nat, nat>` pool, proved equal to an independent reference definition, `PeakRam`:
  - a tensor x is resident while layer i runs iff some layer at or before i and some layer at or after i reference it;
  - `PeakRam` is the largest resident total over all layers.

  The proof shows that the pool after admission is exactly the resident set of that layer. It also shows that the pool after eviction is exactly the set carried into the next layer, which is the "free at last use" set.
- `WorkedExample`: the fully connected example from the estimator's doc comment. Its ROM is 10280 bytes and its RAM is 1034 bytes.
- `Posterior`: the `PosteriorHandler` class. Its history and per-category state are `array`s, and `Handle` updates them in place with the source's loops.

C++ integer widths are modelled explicitly:

- the elapsed time, the threshold product and the moving sums are uint32 values and wrap modulo 2^32;
- the start index of the slot being written is a `uint8_t`, so `sample * categoryCount` is truncated modulo 256.

The write always stays inside the buffer (`SlotInBounds`). When `historyLength * categoryCount <= 256` the slot is exactly `sample * categoryCount` and different samples use disjoint slots. This covers the default configuration of 35 x 4 = 140. For larger configurations the truncation makes later samples overwrite earlier slots: with 35 slots and 8 categories, sample 32 writes over sample 0 (`SlotStartTruncates`). `Handle` is modelled with the truncation, as written.

## Model

| member | source | states |
|---|---|---|
| Tensors.DTypeSize | 1_train/student/estimate.py:26-38 | the width is 0 exactly for a dtype missing from the 11-entry table, otherwise the table's width; every width is 0, 1, 2, 4 or 8 |
| Tensors.ProductZeroIff | 1_train/student/estimate.py:53 | the element count is 0 iff some dimension is 0 |
| Tensors.ProductAppend | 1_train/student/estimate.py:53 | adding a dimension multiplies the element count by it |
| Tensors.TensorSize | 1_train/student/estimate.py:40-61 | a scalar (empty shape) has exactly the dtype's width; the size is 0 iff some dimension is 0 or the dtype is unknown |
| Macs.Conv2dMacs | 1_train/student/estimate.py:90-102 | fails with ValueError iff a shape list is not of length 4; succeeds iff both batches are 1, input_c == kernel_ic and output_c == kernel_oc; then the count is output area times the kernel volume oc*kh*kw*ic |
| Macs.DepthwiseConv2dMacs | 1_train/student/estimate.py:137-148 | fails with ValueError iff a shape list is not of length 4; succeeds iff both batches are 1 and output_c == kernel_oc == input_c*channel_mult; then the count is output area times oc*kh*kw |
| Macs.FullyConnectedMacs | 1_train/student/estimate.py:180-192 | fails with ValueError iff a shape list is not of length 2; succeeds iff input_w == filter_h, output_w == filter_w and input_h == output_h; then the count is rows times the filter's size; it never raises a batch-size failure |
| Macs.DepthwiseIsDenseOverInputChannels | 1_train/student/estimate.py:102 | a valid depthwise layer costs exactly 1/ic of the dense Conv2D with the same output and a full [oc, kh, kw, ic] kernel |
| Macs.PointwiseConvIsFullyConnected | 1_train/student/estimate.py:192 | a 1x1 convolution over h x w pixels counts the same as a fully connected layer with h*w rows |
| Macs.Conv2dExample | 1_train/student/estimate.py:102 | input [1,8,8,3], kernel [16,3,3,3], output [1,8,8,16] gives 27648 |
| Macs.DepthwiseConv2dExample | 1_train/student/estimate.py:148 | input [1,8,8,4], kernel [1,3,3,16], output [1,4,4,16], multiplier 4 gives 2304 |
| Rom.ConstBytesConcat | 1_train/student/estimate.py:223-225 | the ROM total of a concatenation is the sum of the totals of its parts |
| Rom.ConstBytesAppend | 1_train/student/estimate.py:223-225 | appending a non-constant tensor leaves the total unchanged; appending a constant one adds exactly its size |
| Rom.ConstBytesSwap | 1_train/student/estimate.py:223-225 | exchanging the two halves of a split tensor list leaves the total unchanged |
| Rom.ConstBytesPerm | 1_train/student/estimate.py:223-225 | the total does not depend on the order of the tensor list: any two lists with the same multiset of tensors give the same estimate |
| Rom.ConstOnly | 1_train/student/estimate.py:224 | the filtered list holds only constant tensors |
| Rom.ConstBytesOnlyConstants | 1_train/student/estimate.py:224 | dropping every non-constant tensor leaves the ROM estimate unchanged |
| Rom.EstimateRom | 1_train/student/estimate.py:219-229 | the accumulating loop returns the sum of the sizes of the constant tensors |
| Ram.MapSumRemove | 1_train/student/estimate.py:276 | the pool total is any one entry plus the total of the rest, so the sum of `memory_pool.values()` does not depend on order |
| Ram.MapSumPair | 1_train/student/estimate.py:276 | a pool of two entries totals their two sizes |
| Ram.MapSumSubmap | 1_train/student/estimate.py:280 | a pool restricted to fewer keys never totals more |
| Ram.PoolTotal | 1_train/student/estimate.py:276 | summing the pool entry by entry yields the pool total |
| Ram.RamTensorsWithIdx | 1_train/student/estimate.py:269 | the filtered list holds exactly the non-constant tensors with the given index |
| Ram.RamSlotCharacterised | 1_train/student/estimate.py:269-273 | `RamSlot`, the size recorded when an index is first admitted, exists iff some non-constant tensor carries that index, and it is that tensor's size |
| Ram.PoolHoldsOnlyActivations | 1_train/student/estimate.py:269-273 | every pool entry is the size of a non-constant tensor with that index; constants never enter the pool |
| Ram.CarriedOnlyFuture | 1_train/student/estimate.py:279-280 | after layer i the pool holds only indices that some later layer references |
| Ram.PeakOfPrefix | 1_train/student/estimate.py:276 | the running peak never decreases as more layers are processed |
| Ram.PeakOfBounds | 1_train/student/estimate.py:276 | the peak is at least every recorded total |
| Ram.PeakOfAttained | 1_train/student/estimate.py:276 | for at least one layer, the peak equals that layer's recorded total |
| Ram.PeakRamIsLargestResidentTotal | 1_train/student/estimate.py:255-282 | the estimate is the resident total of some layer and no layer's resident total exceeds it; it is 0 for no layers |
| Ram.PeakRamCoversEveryLayer | 1_train/student/estimate.py:268-276 | the estimate is at least the total size of the distinct non-constant tensors any single layer touches |
| Ram.SingleLayerPeak | 1_train/student/estimate.py:268-276 | for a one-layer graph the estimate is exactly that layer's footprint |
| Ram.PeakRamIgnoresOrderWithinLayers | 1_train/student/estimate.py:268 | reordering or repeating indices within a layer's inputs and outputs does not change the estimate |
| Ram.AdmitIndex | 1_train/student/estimate.py:269-273 | an index already in the pool is neither re-inserted nor resized; otherwise the first non-constant tensor with that index is added with its size, and an index naming only constants adds nothing |
| Ram.RamRefsExtend | 1_train/student/estimate.py:268 | scanning one more referenced index adds at most that index to the admitted set |
| Ram.AdmitLayer | 1_train/student/estimate.py:268-274 | after a layer's scan the pool's keys are the old keys plus the non-constant indices the layer references; old entries keep their sizes |
| Ram.LiveAtMembership | 1_train/student/estimate.py:268-280 | a tensor is resident at layer i iff it was carried in or layer i touches it as a non-constant tensor |
| Ram.AdmitReachesLiveAt | 1_train/student/estimate.py:268-274 | admitting layer i into the carried pool yields exactly the resident set of layer i |
| Ram.Retain | 1_train/student/estimate.py:280 | the kept pool's keys are the old keys that are still used, with unchanged sizes |
| Ram.UsedIndicesAreLaterRefs | 1_train/student/estimate.py:279 | `UsedIndices`, the `used_indices` set built from the remaining layers, holds exactly the indices some later layer references |
| Ram.EvictReachesCarried | 1_train/student/estimate.py:279-280 | evicting from layer i's resident pool leaves exactly the tensors carried into layer i+1, freed at their last use |
| Ram.PeakOfStep | 1_train/student/estimate.py:276 | the running maximum with one more total is the peak of the longer prefix |
| Ram.PlannerStep | 1_train/student/estimate.py:276-280 | one loop iteration records the resident total of layer i into the running peak and leaves the pool carried into layer i+1 |
| Ram.EstimateRam | 1_train/student/estimate.py:255-282 | the planner's result equals the reference peak over all layers of the resident total, and is 0 for an empty layer list |
| WorkedExample.FcExampleRom | 1_train/student/estimate.py:14-18 | ROM of the doc-comment FC example is 10240 + 40 = 10280 bytes |
| WorkedExample.FcInputSlot | 1_train/student/estimate.py:14 | input x occupies 1024 bytes of RAM |
| WorkedExample.FcOutputFilter | 1_train/student/estimate.py:17 | y is the only tensor with index 3 |
| WorkedExample.FcOutputSlot | 1_train/student/estimate.py:17 | output y occupies 10 bytes of RAM |
| WorkedExample.FcConstantSlots | 1_train/student/estimate.py:15-16 | the weights and the bias never occupy RAM |
| WorkedExample.FcFootprintKeys | 1_train/student/estimate.py:18 | a layer touching 0,1,2,3 where only 0 and 3 are activations has footprint {0, 3} |
| WorkedExample.FcFootprintTotal | 1_train/student/estimate.py:18 | such a footprint totals 1024 + 10 = 1034 bytes |
| WorkedExample.FcExampleRam | 1_train/student/estimate.py:14-18 | RAM of the doc-comment FC example is 1034 bytes |
| Posterior.WrapU32 | 3_run/student/posterior/posterior.cc:135 | reducing an integer to uint32 keeps any value already in range, adds 2^32 to a negative difference down to -2^32, and never increases a non-negative value |
| Posterior.AddScore | 3_run/student/posterior/posterior.cc:173 | the uint32 `+=` of a score gives the plain sum when it fits in 32 bits and the sum minus 2^32 otherwise |
| Posterior.Elapsed | 3_run/student/posterior/posterior.cc:135 | the elapsed time is the plain difference when the clock did not pass the last time; otherwise it is the difference plus 2^32 |
| Posterior.TriggerThreshold | 3_run/student/posterior/posterior.cc:21 | the threshold is the product of the per-sample threshold and the history length whenever that fits in 32 bits, and never exceeds it |
| Posterior.ThresholdExact | 3_run/student/posterior/posterior.cc:21 | up to 0x1010101 history slots the threshold product cannot wrap |
| Posterior.NextSample | 3_run/student/posterior/posterior.cc:144-148 | the write counter stays below the history length and advances as (sample + 1) mod historyLength |
| Posterior.SlotStart | 3_run/student/posterior/posterior.cc:138 | the uint8 slot start never exceeds sample * categoryCount and equals it when the product is below 256 |
| Posterior.Countdown | 3_run/student/posterior/posterior.cc:151-157 | the countdown never grows; it reaches 0 exactly when the elapsed time covers it; otherwise it drops by exactly the elapsed time |
| Posterior.ColumnSumBound | 3_run/student/posterior/posterior.cc:171-175 | a category's column sum is at most 255 per history slot |
| Posterior.ColumnSumFitsU32 | 3_run/student/posterior/posterior.cc:173 | with at most 0x1010101 history slots the uint32 moving sum is the exact column sum |
| Posterior.TopCandidateUnique | 3_run/student/posterior/posterior.cc:179-184 | at most one category is the top candidate |
| Posterior.SlotStartExact | 3_run/student/posterior/posterior.cc:138 | when historyLength * categoryCount <= 256, sample s starts at s * categoryCount |
| Posterior.SlotsDisjoint | 3_run/student/posterior/posterior.cc:138 | under the same condition, different samples write disjoint slots |
| Posterior.SlotStartTruncates | 3_run/student/posterior/posterior.cc:138 | with 8 categories, sample 32 starts at slot 0 like sample 0, since 256 truncates to 0 |
| Posterior.ZeroHistoryHasZeroSums | 3_run/student/posterior/posterior.cc:49-52 | an all-zero history has all-zero column sums |
| Posterior.SlotInBounds | 3_run/student/posterior/posterior.cc:160-162 | the slot written for any sample lies inside the buffer, truncated or not |
| Posterior.TopCandidate | 3_run/student/posterior/posterior.cc:179-184 | the result has the maximal moving sum and every later category has a strictly smaller one, so ties go to the later index |
| Posterior.PosteriorHandler.constructor | 3_run/student/posterior/posterior.cc:18-57 | stores the configuration; the threshold is the uint32 product; all history entries, moving sums, suppression counters, the write counter, the last time and the top index are 0; the sums match the history |
| Posterior.PosteriorHandler.AgeSuppression | 3_run/student/posterior/posterior.cc:151-157 | every category's suppression time counts down by the elapsed time, saturating at 0 |
| Posterior.PosteriorHandler.StoreScores | 3_run/student/posterior/posterior.cc:160-162 | the new scores are written from the slot start on and every other history entry is unchanged |
| Posterior.PosteriorHandler.RecomputeSums | 3_run/student/posterior/posterior.cc:165-175 | afterwards each category's sum is its column sum over all history slots, mod 2^32 |
| Posterior.PosteriorHandler.AddRow | 3_run/student/posterior/posterior.cc:172-174 | adding one history row extends every category's sum by that row's score |
| Posterior.PosteriorHandler.Handle | 3_run/student/posterior/posterior.cc:101-203 | always returns ESP_OK and sets the last time to time_ms. It advances the write counter and writes exactly the new scores into the current slot, leaving the rest of the history unchanged. Each sum becomes its column sum over the history. It selects the top candidate and ages every suppression countdown. It fires iff the top sum reaches the threshold and the top countdown is 0; then it reports the top index, raises the trigger and resets that countdown to suppression_ms; otherwise both outputs keep their incoming values |

## Left out

- Logging, the ESP timer, the test drivers and the submission scripts: these are I/O.
- `malloc`/`free` and the destructor: the buffers are Dafny arrays allocated by the constructor and reclaimed by the runtime. The C++ allocation cannot fail in the model.
- Posterior.PosteriorHandler.constructor: requires `historyLength >= 1` and `categoryCount >= 1`, because with either size 0 `Handle` goes outside a buffer. With `historyLength` 0 the moving-sum loop (`posterior.cc:171`) never runs, but the store at `posterior.cc:161` writes past the empty history buffer. With `categoryCount` 0, the trigger test at `posterior.cc:187-188` reads index 0 of the empty moving-sum and suppression arrays. It also requires the buffer size `historyLength * categoryCount` to fit in 32 bits, because the C++ size product is a uint32.
- Posterior.PosteriorHandler.Handle: requires the caller's score vector to hold at least `categoryCount` entries, which the C++ reads through a raw pointer without checking.
- The private fields declared in `3_run/student/posterior/include/posterior.h:47-48` are not used by the implementation. The model takes its fields from the `.cc` file.
- `current_ram` in `estimate_ram` (`1_train/student/estimate.py:266`, `274`) is computed but never read, so it is not modelled.
- Tensor and layer names, and the layer `idx` field, are diagnostic only. They are carried in the records but play no part in any estimate.
- Tensors.DTypeSize: a dtype missing from the table has width 0, as `dtype_size.get(tensor.dtype, 0)` does; the model does not report it as an error.
- Macs: the source's two assertion failures are both Python `AssertionError`. The model names them `BatchSizeAssertion` and `ShapeAssertion` for readability. A shape entry that is not an integer, such as a `None` dimension, is outside the model's `int` lists.
- Posterior.IsTopCandidate compares uint32 sums that may have wrapped. It models the C++ comparison exactly, but it is not a comparison of true column sums once they exceed 2^32.
