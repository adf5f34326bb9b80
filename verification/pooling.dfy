/** The pooling layer: 4-D/5-D shape inference, reshaping and its growing list of backend configurations. */
module Pooling {
  import opened Wrappers
  import opened Tensors
  import opened FilterLayer
  import Util
  import opened Seqs

  /** Only max pooling exists. */
  datatype PoolingMode = Max

  datatype PoolingConfig = PoolingConfig(mode: PoolingMode, filterShape: seq<nat>, stride: seq<nat>, padding: seq<nat>)
  {
    function Filter(): FilterConfig { FilterConfig(filterShape, stride, padding) }
  }

  /** `num_spatial_dims`: 4-D input has two spatial dimensions, 5-D input three; anything else panics. */
  function NumSpatialDims(inputShape: Shape): (r: Result<nat, ShapeError>)
    ensures r.Ok? <==> |inputShape| == 4 || |inputShape| == 5
    ensures r.Ok? ==> r.value == |inputShape| - 2
    ensures r.Err? ==> r.error == UnsupportedRank(|inputShape|)
  {
    match |inputShape|
    case 4 => Ok(2)
    case 5 => Ok(3)
    case _ => Err(UnsupportedRank(|inputShape|))
  }

  predicate Accepts(config: PoolingConfig, inputShape: Shape)
  {
    (|inputShape| == 4 || |inputShape| == 5) && config.Filter().AcceptsSpatial(inputShape[2..])
  }

  /** `calculate_output_shape`: batch size and channels unchanged, then the spatial formula. */
  function CalculateOutputShape(config: PoolingConfig, inputShape: Shape): (r: Result<Shape, ShapeError>)
    ensures r.Ok? <==> Accepts(config, inputShape)
    ensures r.Ok? ==> |r.value| == |inputShape| && r.value[..2] == inputShape[..2]
    ensures r.Ok? ==> forall i :: 2 <= i < |inputShape| ==>
      r.value[i] == (inputShape[i] + 2 * config.padding[0] - config.filterShape[0]) / config.stride[0] + 1
    ensures !(|inputShape| == 4 || |inputShape| == 5) ==> r == Err(UnsupportedRank(|inputShape|))
  {
    var n :- NumSpatialDims(inputShape);
    var spatial :- config.Filter().SpatialOutput(inputShape[2..]);
    Ok(inputShape[..2] + spatial)
  }

  /** The i32 filter, padding and stride the backend's pooling configuration is built from. */
  datatype PoolingDescriptor = PoolingDescriptor(filter: seq<int>, padding: seq<int>, stride: seq<int>)

  /** The descriptor `reshape` builds for an accepted input shape: the broadcast settings cast to i32. */
  function DescriptorFor(config: PoolingConfig, inputShape: Shape): (d: PoolingDescriptor)
    requires Accepts(config, inputShape)
    ensures |d.filter| == |d.padding| == |d.stride| == |inputShape| - 2
    ensures config.filterShape[0] <= Util.I32_MAX ==> forall i :: 0 <= i < |d.filter| ==> d.filter[i] == config.filterShape[0]
    ensures config.stride[0] <= Util.I32_MAX ==> forall i :: 0 <= i < |d.stride| ==> d.stride[i] == config.stride[0]
    ensures config.padding[0] <= Util.I32_MAX ==> forall i :: 0 <= i < |d.padding| ==> d.padding[i] == config.padding[0]
  {
    var n := |inputShape| - 2;
    PoolingDescriptor(
      Util.CastVecUsizeToI32(config.Filter().SpatialFilterDims(n).value),
      Util.CastVecUsizeToI32(config.Filter().PaddingDims(n).value),
      Util.CastVecUsizeToI32(config.Filter().StrideDims(n).value))
  }

  class PoolingLayer {
    const config: PoolingConfig
    var poolingConfigs: seq<PoolingDescriptor>

    /** `from_config`: copies mode, filter, stride and padding; no pooling configurations yet. */
    constructor FromConfig(config: PoolingConfig)
      ensures this.config == config && poolingConfigs == []
    {
      this.config := config;
      poolingConfigs := [];
    }

    /** One input and one output, like every common layer. */
    function Arity(): (r: BlobArity)
      ensures r.exactInputs == Some(1) && r.exactOutputs == Some(1)
    {
      CommonArity
    }

    /**
     * `reshape`: for every input (always reading input 0) resize the
     * output data and gradient to the output shape and append one more
     * backend configuration; the list is never cleared. The input is
     * read-locked while the outputs are written, so it is neither of them.
     */
    method Reshape(inputData: seq<SharedTensor>, outputData: seq<SharedTensor>, outputGradient: seq<SharedTensor>)
      requires |inputData| > 0 ==>
        |outputData| > 0 && |outputGradient| > 0 &&
        Accepts(config, inputData[0].desc) &&
        inputData[0] !in {outputData[0], outputGradient[0]}
      modifies this, Head(outputData), Head(outputGradient)
      ensures |inputData| > 0 ==>
        var outShape := CalculateOutputShape(config, inputData[0].desc).value;
        outputData[0].desc == outShape && outputData[0].Valid() &&
        outputGradient[0].desc == outShape && outputGradient[0].Valid()
      ensures |inputData| > 0 ==>
        poolingConfigs == old(poolingConfigs) + Repeat(DescriptorFor(config, inputData[0].desc), |inputData|)
      ensures |inputData| == 0 ==> poolingConfigs == old(poolingConfigs)
    {
      if |inputData| == 0 {
        return;
      }
      var inp := inputData[0];
      ghost var outShape := CalculateOutputShape(config, inp.desc).value;
      ghost var descriptor := DescriptorFor(config, inp.desc);
      for i := 0 to |inputData|
        invariant inp.desc == old(inp.desc)
        invariant i > 0 ==>
          outputData[0].desc == outShape && outputData[0].Valid() &&
          outputGradient[0].desc == outShape && outputGradient[0].Valid()
        invariant |poolingConfigs| == |old(poolingConfigs)| + i
        invariant forall j :: 0 <= j < |poolingConfigs| ==>
          poolingConfigs[j] == if j < |old(poolingConfigs)| then old(poolingConfigs)[j] else descriptor
      {
        ReshapeOnce(inp, outputData[0], outputGradient[0]);
      }
      assert poolingConfigs == old(poolingConfigs) + Repeat(descriptor, |inputData|);
    }

    /** One turn of the loop of `reshape`: resize both outputs and append one configuration. */
    method ReshapeOnce(inp: SharedTensor, outputData: SharedTensor, outputGradient: SharedTensor)
      requires Accepts(config, inp.desc) && inp != outputData && inp != outputGradient
      modifies this, outputData, outputGradient
      ensures inp.desc == old(inp.desc)
      ensures outputData.desc == CalculateOutputShape(config, inp.desc).value && outputData.Valid()
      ensures outputGradient.desc == CalculateOutputShape(config, inp.desc).value && outputGradient.Valid()
      ensures poolingConfigs == old(poolingConfigs) + [DescriptorFor(config, inp.desc)]
    {
      var inputShape := inp.desc;
      var outputShape := CalculateOutputShape(config, inputShape).value;
      outputData.Resize(outputShape);
      outputGradient.Resize(outputShape);
      poolingConfigs := poolingConfigs + [DescriptorFor(config, inputShape)];
    }

    /**
     * `compute_output`: the backend's max pooling (a parameter here) run
     * with the FIRST recorded configuration, whatever was appended later.
     */
    method ComputeOutput(maxPool: (PoolingDescriptor, seq<real>) -> seq<real>, input: SharedTensor, output: SharedTensor)
      requires |poolingConfigs| > 0
      requires input.mem != output.mem
      requires |maxPool(poolingConfigs[0], input.mem[..])| == output.mem.Length
      modifies output.mem
      ensures output.mem[..] == maxPool(poolingConfigs[0], input.mem[..])
    {
      var config := poolingConfigs[0];
      var result := maxPool(config, input.mem[..]);
      Util.WriteToMemory(Util.Native(output.mem), result);
    }

    /** `compute_input_gradient`: the backend's max-pooling gradient, again with the first configuration. */
    method ComputeInputGradient(
      maxPoolGrad: (PoolingDescriptor, seq<real>, seq<real>, seq<real>) -> seq<real>,
      outputData: SharedTensor, outputGradient: SharedTensor, inputData: SharedTensor, inputGradient: SharedTensor)
      requires |poolingConfigs| > 0
      requires inputGradient.mem !in {outputData.mem, outputGradient.mem, inputData.mem}
      requires |maxPoolGrad(poolingConfigs[0], outputData.mem[..], outputGradient.mem[..], inputData.mem[..])| == inputGradient.mem.Length
      modifies inputGradient.mem
      ensures inputGradient.mem[..] ==
        maxPoolGrad(poolingConfigs[0], old(outputData.mem[..]), old(outputGradient.mem[..]), old(inputData.mem[..]))
    {
      var config := poolingConfigs[0];
      var result := maxPoolGrad(config, outputData.mem[..], outputGradient.mem[..], inputData.mem[..]);
      Util.WriteToMemory(Util.Native(inputGradient.mem), result);
    }
  }

  /** Two reshapes with one input each leave two configurations, both built from the same settings. */
  method ReshapeTwice(layer: PoolingLayer, input: SharedTensor, output: SharedTensor, gradient: SharedTensor)
    requires layer.poolingConfigs == []
    requires Accepts(layer.config, input.desc) && input !in {output, gradient}
    modifies layer, output, gradient
    ensures |layer.poolingConfigs| == 2
    ensures layer.poolingConfigs[0] == layer.poolingConfigs[1] == DescriptorFor(layer.config, input.desc)
  {
    layer.Reshape([input], [output], [gradient]);
    layer.Reshape([input], [output], [gradient]);
  }
}
