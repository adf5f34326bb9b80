/** The reshape utility layer: gives its (in-place) output tensor a configured shape. */
module ReshapeLayer {
  import opened Tensors

  datatype ReshapeConfig = ReshapeConfig(shape: Shape)

  /** `ReshapeConfig::of_shape`: a configuration holding a copy of `shape`. */
  function OfShape(shape: Shape): (config: ReshapeConfig)
    ensures config.shape == shape
  {
    ReshapeConfig(shape)
  }

  /**
   * `write_capnp`: the shape list is initialised with one entry per
   * dimension and each dimension is stored at its own position (as an
   * unsigned 64-bit value, which holds any `usize`).
   */
  method WriteCapnp(config: ReshapeConfig) returns (written: seq<nat>)
    ensures |written| == |config.shape|
    ensures forall i :: 0 <= i < |written| ==> written[i] == config.shape[i]
  {
    var shapeList := new nat[|config.shape|](_ => 0);
    for i := 0 to |config.shape|
      invariant forall k :: 0 <= k < i ==> shapeList[k] == config.shape[k]
    {
      shapeList[i] := config.shape[i];
    }
    written := shapeList[..];
  }

  class Reshape {
    const shape: Shape

    /** `from_config`: copies the configured shape. */
    constructor FromConfig(config: ReshapeConfig)
      ensures shape == config.shape
    {
      shape := config.shape;
    }

    /** The layer works in place: its input tensor is also its output tensor. */
    function ComputeInPlace(): (r: bool)
      ensures r
    {
      true
    }

    /** Its output tensors are not created automatically. */
    function AutoOutputBlobs(): (r: bool)
      ensures !r
    {
      false
    }

    /**
     * `reshape`: the first output data tensor and the first output
     * gradient tensor take the configured shape, whatever the input's
     * shape; no other tensor is touched (in the usual in-place use the
     * input is the output, and so is reshaped with it).
     */
    method Reshape(outputData: seq<SharedTensor>, outputGradient: seq<SharedTensor>)
      requires |outputData| > 0 && |outputGradient| > 0
      modifies outputData[0], outputGradient[0]
      ensures outputData[0].desc == shape && outputData[0].Valid()
      ensures outputGradient[0].desc == shape && outputGradient[0].Valid()
    {
      outputData[0].Resize(shape);
      outputGradient[0].Resize(shape);
    }

    /** `compute_output` does nothing: reshaping is all the layer does. */
    method ComputeOutput(inputData: seq<SharedTensor>, outputData: seq<SharedTensor>)
    {
    }

    /** `compute_input_gradient` does nothing either. */
    method ComputeInputGradient(outputGradients: seq<SharedTensor>, inputGradients: seq<SharedTensor>)
    {
    }
  }
}
