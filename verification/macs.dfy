/**
 * Closed-form multiply-accumulate counts for the three supported operators.
 * Each takes the shapes as plain integer lists: a list of the wrong length
 * fails the tuple unpacking, and a violated shape assertion fails the call.
 */
module Macs {
  import opened Wrappers

  datatype MacError =
    | ValueError            // a shape list does not have the unpacked number of entries
    | BatchSizeAssertion    // batch dimension of input or output is not 1
    | ShapeAssertion        // channel or matrix dimensions do not agree

  /** Conv2D over NHWC input/output and an OHWI kernel. */
  function Conv2dMacs(inShape: seq<int>, kernelShape: seq<int>, outShape: seq<int>): (r: Result<int, MacError>)
    ensures r == Err(ValueError) <==> |inShape| != 4 || |kernelShape| != 4 || |outShape| != 4
    ensures r.Ok? <==>
      |inShape| == 4 && |kernelShape| == 4 && |outShape| == 4 &&
      inShape[0] == 1 && outShape[0] == 1 &&
      inShape[3] == kernelShape[3] && outShape[3] == kernelShape[0]
    ensures r.Ok? ==>
      r.value == outShape[1] * outShape[2] * kernelShape[0] * kernelShape[1] * kernelShape[2] * kernelShape[3]
  {
    if |inShape| != 4 || |kernelShape| != 4 || |outShape| != 4 then Err(ValueError)
    else
      var inputN, inputH, inputW, inputC := inShape[0], inShape[1], inShape[2], inShape[3];
      var kernelOc, kernelH, kernelW, kernelIc := kernelShape[0], kernelShape[1], kernelShape[2], kernelShape[3];
      var outputN, outputH, outputW, outputC := outShape[0], outShape[1], outShape[2], outShape[3];
      if !(inputN == outputN == 1) then Err(BatchSizeAssertion)
      else if inputC != kernelIc then Err(ShapeAssertion)
      else if outputC != kernelOc then Err(ShapeAssertion)
      else Ok(outputH * outputW * outputC * kernelH * kernelW * inputC)
  }

  /** Depthwise Conv2D; the kernel is [1, kh, kw, oc] and oc = ic * channelMult. */
  function DepthwiseConv2dMacs(inShape: seq<int>, kernelShape: seq<int>, outShape: seq<int>, channelMult: int)
    : (r: Result<int, MacError>)
    ensures r == Err(ValueError) <==> |inShape| != 4 || |kernelShape| != 4 || |outShape| != 4
    ensures r.Ok? <==>
      |inShape| == 4 && |kernelShape| == 4 && |outShape| == 4 &&
      inShape[0] == 1 && outShape[0] == 1 &&
      outShape[3] == kernelShape[3] == inShape[3] * channelMult
    ensures r.Ok? ==>
      r.value == outShape[1] * outShape[2] * outShape[3] * kernelShape[1] * kernelShape[2]
  {
    if |inShape| != 4 || |kernelShape| != 4 || |outShape| != 4 then Err(ValueError)
    else
      var inputN, inputH, inputW, inputC := inShape[0], inShape[1], inShape[2], inShape[3];
      var kernelH, kernelW, kernelOc := kernelShape[1], kernelShape[2], kernelShape[3];
      var outputN, outputH, outputW, outputC := outShape[0], outShape[1], outShape[2], outShape[3];
      if !(inputN == outputN == 1) then Err(BatchSizeAssertion)
      else if !(outputC == kernelOc == inputC * channelMult) then Err(ShapeAssertion)
      else Ok(outputH * outputW * inputC * kernelH * kernelW * channelMult)
  }

  /** Fully connected layer as a matrix product [h, w] x [w, ow] -> [h, ow]. */
  function FullyConnectedMacs(inShape: seq<int>, filterShape: seq<int>, outShape: seq<int>): (r: Result<int, MacError>)
    ensures r == Err(ValueError) <==> |inShape| != 2 || |filterShape| != 2 || |outShape| != 2
    ensures r.Ok? <==>
      |inShape| == 2 && |filterShape| == 2 && |outShape| == 2 &&
      inShape[1] == filterShape[0] && outShape[1] == filterShape[1] && inShape[0] == outShape[0]
    ensures r.Ok? ==> r.value == outShape[0] * filterShape[0] * filterShape[1]
    ensures r.Err? ==> r.error != BatchSizeAssertion
  {
    if |inShape| != 2 || |filterShape| != 2 || |outShape| != 2 then Err(ValueError)
    else
      var inputH, inputW := inShape[0], inShape[1];
      var filterH, filterW := filterShape[0], filterShape[1];
      var outputH, outputW := outShape[0], outShape[1];
      if inputW != filterH then Err(ShapeAssertion)
      else if outputW != filterW then Err(ShapeAssertion)
      else if inputH != outputH then Err(ShapeAssertion)
      else Ok(inputH * inputW * outputW)
  }

  /**
   * A depthwise convolution costs 1/ic of the dense convolution with the same
   * output and a full [oc, kh, kw, ic] kernel: each output channel reads one
   * input channel instead of all ic of them.
   */
  lemma DepthwiseIsDenseOverInputChannels(inShape: seq<int>, kernelShape: seq<int>, outShape: seq<int>, channelMult: int)
    requires DepthwiseConv2dMacs(inShape, kernelShape, outShape, channelMult).Ok?
    ensures Conv2dMacs(inShape, [kernelShape[3], kernelShape[1], kernelShape[2], inShape[3]], outShape)
         == Ok(DepthwiseConv2dMacs(inShape, kernelShape, outShape, channelMult).value * inShape[3])
  {
    var oh, ow, kh, kw, ic := outShape[1], outShape[2], kernelShape[1], kernelShape[2], inShape[3];
    assert oh * ow * ic * kh * kw * channelMult * ic == oh * ow * (ic * channelMult) * kh * kw * ic;
  }

  /** A 1x1 convolution over an h x w image is a matrix product with h * w rows. */
  lemma PointwiseConvIsFullyConnected(h: int, w: int, ic: int, oc: int)
    ensures Conv2dMacs([1, h, w, ic], [oc, 1, 1, ic], [1, h, w, oc])
         == FullyConnectedMacs([h * w, ic], [ic, oc], [h * w, oc])
  {
    assert h * w * oc * 1 * 1 * ic == h * w * ic * oc;
  }

  /** Input [1,8,8,3], kernel [16,3,3,3], output [1,8,8,16]: 8*8*16*3*3*3 multiplications. */
  lemma Conv2dExample()
    ensures Conv2dMacs([1, 8, 8, 3], [16, 3, 3, 3], [1, 8, 8, 16]) == Ok(27648)
  {
  }

  /** Input [1,8,8,4], kernel [1,3,3,16], output [1,4,4,16], multiplier 4: 4*4*4*3*3*4 multiplications. */
  lemma DepthwiseConv2dExample()
    ensures DepthwiseConv2dMacs([1, 8, 8, 4], [1, 3, 3, 16], [1, 4, 4, 16], 4) == Ok(2304)
  {
  }
}
