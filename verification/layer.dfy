/**
 * The generic layer wrapper the containers and solvers work with. Its
 * definition (configuration, `from_config`, `connect`, the per-layer
 * forward and backward passes) lives in a file that is not part of this
 * model; only the fields the modelled code reads and writes are kept.
 */
module Layers {
  import opened Wrappers
  import opened Tensors

  /** The parts of a layer configuration the sequential wiring reads and extends. */
  datatype LayerConfig = LayerConfig(name: string, supportsInPlace: bool, inputs: seq<string>, outputs: seq<string>)
  {
    function AddInput(inputName: string): (r: LayerConfig)
      ensures r.name == name && r.supportsInPlace == supportsInPlace && r.outputs == outputs
      ensures r.inputs == inputs + [inputName]
    {
      this.(inputs := inputs + [inputName])
    }

    function AddOutput(outputName: string): (r: LayerConfig)
      ensures r.name == name && r.supportsInPlace == supportsInPlace && r.inputs == inputs
      ensures r.outputs == outputs + [outputName]
    {
      this.(outputs := outputs + [outputName])
    }
  }

  /** A layer instance: named input and output blobs bound to shared tensors, and its learnable weights. */
  class Layer {
    var name: string
    var inputBlobNames: seq<string>
    var inputBlobsData: seq<SharedTensor>
    var outputBlobNames: seq<string>
    var outputBlobsData: seq<SharedTensor>
    var outputBlobsGradient: seq<SharedTensor>
    var learnableWeightsData: seq<SharedTensor>
    var learnableWeightsGradients: seq<SharedTensor>
    var learnableWeightsNames: seq<string>
    var learnableWeightsLr: seq<Option<real>>

    ghost predicate Valid()
      reads this
    {
      |inputBlobNames| == |inputBlobsData| &&
      |outputBlobNames| == |outputBlobsData| == |outputBlobsGradient|
    }

    /** Everything except the tensors bound to the inputs. */
    ghost function AllButInputData(): (string, seq<string>, seq<string>, seq<SharedTensor>, seq<SharedTensor>, Weights)
      reads this
    {
      (name, inputBlobNames, outputBlobNames, outputBlobsData, outputBlobsGradient, LearnableWeights())
    }

    /** Everything except the tensors bound to the output gradients. */
    ghost function AllButOutputGradients(): (string, seq<string>, seq<SharedTensor>, seq<string>, seq<SharedTensor>, Weights)
      reads this
    {
      (name, inputBlobNames, inputBlobsData, outputBlobNames, outputBlobsData, LearnableWeights())
    }

    ghost function LearnableWeights(): Weights
      reads this
    {
      Weights(learnableWeightsData, learnableWeightsGradients, learnableWeightsNames, learnableWeightsLr)
    }

    /**
     * Binds the container's inputs by position: slot `i` takes input `i`
     * when the slot is named like the container's input `i`.
     */
    method BindContainerInputs(inputs: seq<SharedTensor>, inputNames: seq<string>)
      requires Valid()
      requires Shorter(|inputs|, |inputNames|) <= |inputBlobNames|
      modifies this
      ensures Valid()
      ensures AllButInputData() == old(AllButInputData())
      ensures |inputBlobsData| == |old(inputBlobsData)|
      ensures forall i :: 0 <= i < |inputBlobsData| ==>
        inputBlobsData[i] == BoundInput(old(inputBlobsData), inputBlobNames, inputs, inputNames, i)
    {
      var bound := Shorter(|inputs|, |inputNames|);
      for i := 0 to bound
        invariant Valid()
        invariant AllButInputData() == old(AllButInputData())
        invariant |inputBlobsData| == |old(inputBlobsData)|
        invariant forall j :: 0 <= j < |inputBlobsData| ==>
          inputBlobsData[j] == if j < i then BoundInput(old(inputBlobsData), inputBlobNames, inputs, inputNames, j) else old(inputBlobsData)[j]
      {
        if inputBlobNames[i] == inputNames[i] {
          inputBlobsData := inputBlobsData[i := inputs[i]];
        }
      }
    }

    /** Binds the given gradients to the first output gradient slots. */
    method SetOutputGradients(gradients: seq<SharedTensor>)
      requires Valid()
      requires |gradients| <= |outputBlobsGradient|
      modifies this
      ensures Valid()
      ensures AllButOutputGradients() == old(AllButOutputGradients())
      ensures outputBlobsGradient == gradients + old(outputBlobsGradient)[|gradients|..]
    {
      for i := 0 to |gradients|
        invariant Valid()
        invariant AllButOutputGradients() == old(AllButOutputGradients())
        invariant |outputBlobsGradient| == |old(outputBlobsGradient)|
        invariant forall j :: 0 <= j < |outputBlobsGradient| ==>
          outputBlobsGradient[j] == if j < i then gradients[j] else old(outputBlobsGradient)[j]
      {
        outputBlobsGradient := outputBlobsGradient[i := gradients[i]];
      }
      assert outputBlobsGradient == gradients + old(outputBlobsGradient)[|gradients|..];
    }

    /**
     * A layer built from a wired configuration: its blob names are the
     * configuration's, each bound to a tensor of its own. Sharing tensors
     * between layers by name is done by `connect`, which is not modelled.
     */
    constructor FromConfig(config: LayerConfig)
      ensures Valid()
      ensures name == config.name
      ensures inputBlobNames == config.inputs && outputBlobNames == config.outputs
      ensures learnableWeightsData == [] && learnableWeightsGradients == []
      ensures learnableWeightsNames == [] && learnableWeightsLr == []
    {
      name := config.name;
      inputBlobNames := config.inputs;
      outputBlobNames := config.outputs;
      var inputs := FreshTensors(|config.inputs|);
      var outputs := FreshTensors(|config.outputs|);
      var gradients := FreshTensors(|config.outputs|);
      inputBlobsData := inputs;
      outputBlobsData := outputs;
      outputBlobsGradient := gradients;
      learnableWeightsData := [];
      learnableWeightsGradients := [];
      learnableWeightsNames := [];
      learnableWeightsLr := [];
    }
  }

  /** A layer's learnable weights and their gradients, names and learning-rate multipliers. */
  datatype Weights = Weights(data: seq<SharedTensor>, gradients: seq<SharedTensor>, names: seq<string>, lrs: seq<Option<real>>)

  /** How far a zip of the two lists runs. */
  function Shorter(a: nat, b: nat): nat
  {
    if a < b then a else b
  }

  /** The tensor in input slot `i` after the container inputs are bound by name. */
  function BoundInput(slots: seq<SharedTensor>, slotNames: seq<string>, inputs: seq<SharedTensor>, inputNames: seq<string>, i: nat): SharedTensor
    requires i < |slots| && i < |slotNames|
  {
    if i < |inputs| && i < |inputNames| && slotNames[i] == inputNames[i] then inputs[i] else slots[i]
  }

  /** `count` new, empty tensors. */
  method FreshTensors(count: nat) returns (ts: seq<SharedTensor>)
    ensures |ts| == count
    ensures forall i :: 0 <= i < count ==> fresh(ts[i])
  {
    ts := [];
    while |ts| < count
      invariant |ts| <= count
      invariant forall i :: 0 <= i < |ts| ==> fresh(ts[i])
    {
      var t := new SharedTensor([0]);
      ts := ts + [t];
    }
  }
}
