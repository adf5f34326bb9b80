/** The fully connected (linear) layer: shape inference and reshaping of outputs and weights. */
module Linear {
  import opened Wrappers
  import opened Tensors
  import opened FilterLayer
  import Util

  /** `calculate_input_size`: the product of every dimension after the batch size (1 when there is none). */
  function CalculateInputSize(inputShape: Shape): (m: nat)
    ensures |inputShape| <= 1 ==> m == 1
    ensures |inputShape| > 0 ==> m == Size(inputShape[1..])
    ensures |inputShape| > 0 ==> inputShape[0] * m == Size(inputShape)
  {
    if |inputShape| > 0 then
      SizeCons(inputShape[0], inputShape[1..]);
      assert [inputShape[0]] + inputShape[1..] == inputShape;
      Size(Drop(inputShape, 1))
    else
      Size(Drop(inputShape, 1))
  }

  /** `calculate_output_shape`: `[batch size, output size]`; the batch size is read from index 0. */
  function CalculateOutputShape(outputSize: nat, inputShape: Shape): (r: Shape)
    requires |inputShape| > 0
    ensures |r| == 2 && r[0] == inputShape[0] && r[1] == outputSize
    ensures Size(r) == inputShape[0] * outputSize
  {
    SizePair(inputShape[0], outputSize);
    [inputShape[0], outputSize]
  }

  /** `calculate_weight_shape`: one row of `input size` weights per output. */
  function CalculateWeightShape(outputSize: nat, inputShape: Shape): (r: Shape)
    ensures |r| == 2 && r[0] == outputSize && r[1] == CalculateInputSize(inputShape)
  {
    [outputSize, CalculateInputSize(inputShape)]
  }

  /** A batch times the weight matrix gives the output: the three shapes agree. */
  lemma ShapesAgree(outputSize: nat, inputShape: Shape)
    requires |inputShape| > 0
    ensures var w := CalculateWeightShape(outputSize, inputShape);
      var o := CalculateOutputShape(outputSize, inputShape);
      o[0] * w[1] == Size(inputShape) && w[0] == o[1]
  {
  }

  class LinearLayer {
    const outputSize: nat
    /** The scalars 1 and 0 the layer hands to `gemm`. */
    const one: SharedTensor
    const zero: SharedTensor

    /** `from_config`: the output size, and fresh one-element tensors holding 1 and 0. */
    constructor FromConfig(outputSize: nat)
      ensures this.outputSize == outputSize
      ensures fresh(one) && one.desc == [1] && one.mem[..] == [1.0]
      ensures fresh(zero) && zero.desc == [1] && zero.mem[..] == [0.0]
    {
      this.outputSize := outputSize;
      var o := Util.NativeScalar(1.0);
      var z := Util.NativeScalar(0.0);
      one := o;
      zero := z;
    }

    /** `Default`: a linear layer with 10 outputs. */
    constructor Default()
      ensures outputSize == 10
      ensures fresh(one) && one.desc == [1] && one.mem[..] == [1.0]
      ensures fresh(zero) && zero.desc == [1] && zero.mem[..] == [0.0]
    {
      outputSize := 10;
      var o := Util.NativeScalar(1.0);
      var z := Util.NativeScalar(0.0);
      one := o;
      zero := z;
    }

    /** One input and one output, like every common layer. */
    function Arity(): (r: BlobArity)
      ensures r.exactInputs == Some(1) && r.exactOutputs == Some(1)
    {
      CommonArity
    }

    /**
     * `reshape`: the output data and gradient take the output shape; the
     * first weight tensor and the first weight-gradient tensor, when there
     * are any, take the weight shape (the Glorot fill of the weights is
     * random and not modelled). The writes happen in that order, so an
     * output tensor that is also a weight tensor ends with the weight
     * shape. The input stays read-locked throughout, so it is none of them.
     */
    method Reshape(
      inputData: seq<SharedTensor>,
      weightsData: seq<SharedTensor>, weightsGradient: seq<SharedTensor>,
      outputData: seq<SharedTensor>, outputGradient: seq<SharedTensor>)
      requires |inputData| > 0 && |inputData[0].desc| > 0
      requires |outputData| > 0 && |outputGradient| > 0
      requires inputData[0] !in {outputData[0], outputGradient[0]} + Head(weightsData) + Head(weightsGradient)
      modifies Head(outputData), Head(outputGradient), Head(weightsData), Head(weightsGradient)
      ensures var outShape := CalculateOutputShape(outputSize, inputData[0].desc);
        (outputData[0] !in Head(weightsData) + Head(weightsGradient) ==>
          outputData[0].desc == outShape && outputData[0].Valid()) &&
        (outputGradient[0] !in Head(weightsData) + Head(weightsGradient) ==>
          outputGradient[0].desc == outShape && outputGradient[0].Valid())
      ensures var weightShape := CalculateWeightShape(outputSize, inputData[0].desc);
        (|weightsData| > 0 ==> weightsData[0].desc == weightShape && weightsData[0].Valid()) &&
        (|weightsGradient| > 0 ==> weightsGradient[0].desc == weightShape && weightsGradient[0].Valid())
    {
      var input := inputData[0];
      var outputShape := CalculateOutputShape(outputSize, input.desc);
      outputData[0].Resize(outputShape);
      outputGradient[0].Resize(outputShape);
      var weightShape := CalculateWeightShape(outputSize, input.desc);
      if |weightsData| > 0 {
        weightsData[0].Resize(weightShape);
      }
      if |weightsGradient| > 0 {
        weightsGradient[0].Resize(weightShape);
      }
    }
  }
}
