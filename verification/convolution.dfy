/** The convolution layer: NCHW shape inference, tensor reshaping and the shared workspace. */
module Convolution {
  import opened Wrappers
  import opened Tensors
  import opened FilterLayer
  import Util

  /** The settings a convolution layer is built from. */
  datatype ConvolutionConfig = ConvolutionConfig(numOutput: nat, filterShape: seq<nat>, stride: seq<nat>, padding: seq<nat>)
  {
    function Filter(): FilterConfig { FilterConfig(filterShape, stride, padding) }
  }

  /** `num_spatial_dims`: only 4-D (NCHW) inputs are supported, with two spatial dimensions. */
  function NumSpatialDims(inputShape: Shape): (r: Result<nat, ShapeError>)
    ensures r.Ok? <==> |inputShape| == 4
    ensures r.Ok? ==> r.value == 2
    ensures r.Err? ==> r.error == UnsupportedRank(|inputShape|)
  {
    if |inputShape| == 4 then Ok(2) else Err(UnsupportedRank(|inputShape|))
  }

  /** Whether shape inference succeeds: a 4-D input and settings that broadcast and fit. */
  predicate Accepts(config: ConvolutionConfig, inputShape: Shape)
  {
    |inputShape| == 4 && config.Filter().AcceptsSpatial(inputShape[2..])
  }

  /** `calculate_output_shape`: the batch size, the number of outputs, then the spatial formula. */
  function CalculateOutputShape(config: ConvolutionConfig, inputShape: Shape): (r: Result<Shape, ShapeError>)
    ensures r.Ok? <==> Accepts(config, inputShape)
    ensures |inputShape| != 4 ==> r == Err(UnsupportedRank(|inputShape|))
    ensures r.Ok? ==> |r.value| == 4 && r.value[0] == inputShape[0] && r.value[1] == config.numOutput
  {
    var n :- NumSpatialDims(inputShape);
    var spatial :- config.Filter().SpatialOutput(inputShape[2..]);
    Ok(inputShape[..1] + [config.numOutput] + spatial)
  }

  /** `calculate_filter_shape`: `[num_output, input channels, filter height, filter width]`. */
  function CalculateFilterShape(config: ConvolutionConfig, inputShape: Shape): (r: Result<Shape, ShapeError>)
    ensures r.Ok? <==> |inputShape| == 4 && |config.filterShape| == 1
    ensures |inputShape| != 4 ==> r == Err(UnsupportedRank(|inputShape|))
    ensures r.Ok? ==> r.value == [config.numOutput, inputShape[1], config.filterShape[0], config.filterShape[0]]
  {
    var n :- NumSpatialDims(inputShape);
    var dims :- config.Filter().SpatialFilterDims(n);
    Ok([config.numOutput, inputShape[1], dims[0], dims[1]])
  }

  /** The output shape of an accepted 4-D input, in closed form. */
  lemma OutputShapeSpec(config: ConvolutionConfig, inputShape: Shape)
    ensures Accepts(config, inputShape) ==>
      var f, p, s := config.filterShape[0], config.padding[0], config.stride[0];
      CalculateOutputShape(config, inputShape).value ==
        [inputShape[0], config.numOutput, (inputShape[2] + 2 * p - f) / s + 1, (inputShape[3] + 2 * p - f) / s + 1]
  {
  }

  /** The AlexNet-style first layer: 64 filters of 11x11, padding 2, stride 4 on a 224x224 RGB image. */
  lemma AlexNetFirstLayer()
    ensures var config := ConvolutionConfig(64, [11], [4], [2]);
      config.Filter().SpatialFilterDims(2) == Ok([11, 11]) &&
      config.Filter().PaddingDims(2) == Ok([2, 2]) &&
      config.Filter().StrideDims(2) == Ok([4, 4]) &&
      CalculateFilterShape(config, [1, 3, 224, 224]) == Ok([64, 3, 11, 11]) &&
      CalculateOutputShape(config, [1, 3, 224, 224]) == Ok([1, 64, 55, 55])
  {
    var config := ConvolutionConfig(64, [11], [4], [2]);
    assert config.Filter().SpatialFilterDims(2).value == [11, 11];
    assert config.Filter().PaddingDims(2).value == [2, 2];
    assert config.Filter().StrideDims(2).value == [4, 4];
    OutputShapeSpec(config, [1, 3, 224, 224]);
  }

  /**
   * What the backend's convolution configuration is built from; the
   * workspace size it reports is the backend's answer for these shapes.
   */
  datatype ConvDescriptor = ConvDescriptor(
    inputShape: Shape, outputShape: Shape, filterShape: Shape,
    stride: seq<int>, padding: seq<int>, workspaceSize: nat)

  /** A shared byte buffer used as scratch space by the backend. */
  class Workspace {
    const capacity: nat

    constructor (size: nat)
      ensures capacity == size
    {
      capacity := size;
    }
  }

  class ConvolutionLayer {
    const config: ConvolutionConfig
    var workspace: Option<Workspace>
    var convolutionConfig: Option<ConvDescriptor>

    /** `from_config`: copies the settings; no workspace and no backend configuration yet. */
    constructor FromConfig(config: ConvolutionConfig)
      ensures this.config == config
      ensures workspace == None && convolutionConfig == None
    {
      this.config := config;
      workspace := None;
      convolutionConfig := None;
    }

    /** The convolution layer asks for its weight blobs to be created automatically. */
    function AutoWeightBlobs(): (r: bool)
      ensures r
    {
      true
    }

    /** One input and one output, like every common layer. */
    function Arity(): (r: BlobArity)
      ensures r.exactInputs == Some(1) && r.exactOutputs == Some(1)
    {
      CommonArity
    }

    /**
     * `reshape`: for every input (always reading input 0) resize the
     * output data and gradient to the output shape and the weight data and
     * gradient to the filter shape, and record the backend configuration.
     * The Glorot initialisation of the weights is random and not modelled;
     * their contents are left unspecified. The input is read-locked while
     * the other four are written, and the output data and gradient are
     * write-locked together, so those tensors are distinct.
     */
    method Reshape(
      workspaceSize: nat,
      inputData: seq<SharedTensor>,
      weightsData: seq<SharedTensor>, weightsGradient: seq<SharedTensor>,
      outputData: seq<SharedTensor>, outputGradient: seq<SharedTensor>)
      requires |inputData| > 0 ==>
        |outputData| > 0 && |outputGradient| > 0 && |weightsData| > 0 && |weightsGradient| > 0 &&
        Accepts(config, inputData[0].desc) &&
        inputData[0] !in {outputData[0], outputGradient[0], weightsData[0], weightsGradient[0]} &&
        outputData[0] != outputGradient[0] &&
        weightsData[0] !in {outputData[0], outputGradient[0]} &&
        weightsGradient[0] !in {outputData[0], outputGradient[0]}
      modifies this, Head(outputData), Head(outputGradient), Head(weightsData), Head(weightsGradient)
      ensures workspace == old(workspace)
      ensures |inputData| == 0 ==> convolutionConfig == old(convolutionConfig)
      ensures |inputData| > 0 ==>
        var inShape := inputData[0].desc;
        var outShape := CalculateOutputShape(config, inShape).value;
        var filterShape := CalculateFilterShape(config, inShape).value;
        outputData[0].desc == outShape && outputData[0].Valid() &&
        outputGradient[0].desc == outShape && outputGradient[0].Valid() &&
        weightsData[0].desc == filterShape && weightsData[0].Valid() &&
        weightsGradient[0].desc == filterShape && weightsGradient[0].Valid() &&
        convolutionConfig == Some(ConvDescriptor(inShape, outShape, filterShape,
          Util.CastVecUsizeToI32(config.Filter().StrideDims(2).value),
          Util.CastVecUsizeToI32(config.Filter().PaddingDims(2).value),
          workspaceSize))
    {
      OutputShapeSpec(config, if |inputData| > 0 then inputData[0].desc else []);
      for i := 0 to |inputData|
        invariant workspace == old(workspace)
        invariant i == 0 ==> convolutionConfig == old(convolutionConfig)
        invariant i > 0 ==>
          var inShape := inputData[0].desc;
          var outShape := CalculateOutputShape(config, inShape).value;
          var filterShape := CalculateFilterShape(config, inShape).value;
          outputData[0].desc == outShape && outputData[0].Valid() &&
          outputGradient[0].desc == outShape && outputGradient[0].Valid() &&
          weightsData[0].desc == filterShape && weightsData[0].Valid() &&
          weightsGradient[0].desc == filterShape && weightsGradient[0].Valid() &&
          convolutionConfig == Some(ConvDescriptor(inShape, outShape, filterShape,
            Util.CastVecUsizeToI32(config.Filter().StrideDims(2).value),
            Util.CastVecUsizeToI32(config.Filter().PaddingDims(2).value),
            workspaceSize))
        invariant |inputData| > 0 ==> inputData[0].desc == old(inputData[0].desc)
      {
        var inp := inputData[0];
        var inputShape := inp.desc;
        var outputShape := CalculateOutputShape(config, inputShape).value;
        outputData[0].Resize(outputShape);
        outputGradient[0].Resize(outputShape);
        var filterShape := CalculateFilterShape(config, inputShape).value;
        var stride := Util.CastVecUsizeToI32(config.Filter().StrideDims(2).value);
        var padding := Util.CastVecUsizeToI32(config.Filter().PaddingDims(2).value);
        var descriptor := ConvDescriptor(inputShape, outputShape, filterShape, stride, padding, workspaceSize);
        weightsData[0].Resize(filterShape);
        weightsGradient[0].Resize(filterShape);
        convolutionConfig := Some(descriptor);
      }
    }

    /**
     * `resize_shared_workspace`: keep the given workspace when it is large
     * enough for the configured convolution, otherwise allocate one of
     * exactly the required size; remember the result and return it.
     */
    method ResizeSharedWorkspace(given: Option<Workspace>) returns (r: Option<Workspace>)
      requires convolutionConfig.Some?
      modifies this
      ensures convolutionConfig == old(convolutionConfig)
      ensures r.Some? && workspace == r
      ensures given.Some? && given.value.capacity >= convolutionConfig.value.workspaceSize ==> r == given
      ensures given.None? || given.value.capacity < convolutionConfig.value.workspaceSize ==>
        fresh(r.value) && r.value.capacity == convolutionConfig.value.workspaceSize
    {
      var requiredSize := convolutionConfig.value.workspaceSize;
      var newWorkspace: Workspace;
      if given.None? {
        newWorkspace := new Workspace(requiredSize);
      } else if given.value.capacity < requiredSize {
        newWorkspace := new Workspace(requiredSize);
      } else {
        newWorkspace := given.value;
      }
      workspace := Some(newWorkspace);
      r := Some(newWorkspace);
    }
  }
}
