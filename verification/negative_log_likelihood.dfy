/**
 * The negative log-likelihood loss layer, and the loss-layer defaults
 * it takes from the loss macro (one input, one output, automatic output
 * blobs, weight 1 on output 0 only).
 */
module NegativeLogLikelihood {
  import opened Wrappers
  import opened Tensors
  import opened FilterLayer
  import Util

  const LossArity: BlobArity := BlobArity(Some(1), Some(1))

  /** Loss layers ask for their output tensors to be created automatically. */
  function AutoOutputBlobs(): (r: bool)
    ensures r
  {
    true
  }

  /** `loss_weight`: output 0 carries weight 1, no other output carries any. */
  function LossWeight(outputId: nat): (w: Option<real>)
    ensures w.Some? <==> outputId == 0
    ensures w.Some? ==> w.value == 1.0
  {
    if outputId == 0 then Some(1.0) else None
  }

  /** `calculate_outer_num`: the product of the first `axis + 1` dimensions. */
  function CalculateOuterNum(softmaxAxis: nat, inputShape: Shape): (r: nat)
    ensures softmaxAxis + 1 >= |inputShape| ==> r == Size(inputShape)
  {
    var outer := Take(inputShape, softmaxAxis + 1);
    assert softmaxAxis + 1 >= |inputShape| ==> outer == inputShape by {
      if softmaxAxis + 1 >= |inputShape| {
        assert outer + Drop(inputShape, softmaxAxis + 1) == inputShape;
        assert Drop(inputShape, softmaxAxis + 1) == [];
        assert outer + [] == outer;
      }
    }
    Size(Take(inputShape, softmaxAxis + 1))
  }

  /** `calculate_inner_num`: the product of the dimensions after the first `axis + 1`. */
  function CalculateInnerNum(softmaxAxis: nat, inputShape: Shape): (r: nat)
    ensures softmaxAxis + 1 >= |inputShape| ==> r == 1
  {
    Size(Drop(inputShape, softmaxAxis + 1))
  }

  /** The outer and inner counts split the element count of the shape. */
  lemma OuterTimesInner(softmaxAxis: nat, inputShape: Shape)
    ensures CalculateOuterNum(softmaxAxis, inputShape) * CalculateInnerNum(softmaxAxis, inputShape) == Size(inputShape)
  {
    SizeAppend(Take(inputShape, softmaxAxis + 1), Drop(inputShape, softmaxAxis + 1));
  }

  /** `batch_size`: 1 for a 1-D shape, the first dimension of a 2-D shape; other ranks panic. */
  function BatchSize(inputShape: Shape): (r: Result<nat, ShapeError>)
    ensures r.Ok? <==> |inputShape| == 1 || |inputShape| == 2
    ensures |inputShape| == 1 ==> r == Ok(1)
    ensures |inputShape| == 2 ==> r == Ok(inputShape[0])
    ensures r.Err? ==> r.error == UnsupportedRank(|inputShape|)
  {
    match |inputShape|
    case 1 => Ok(1)
    case 2 => Ok(inputShape[0])
    case _ => Err(UnsupportedRank(|inputShape|))
  }

  /** Rust's `f32 as usize`: negative values (and NaN, absent from the reals) give 0, others are truncated. */
  function AsUsize(x: real): (n: nat)
    ensures x >= 0.0 ==> n as real <= x < n as real + 1.0
    ensures x < 1.0 ==> n == 0
  {
    if x < 0.0 then 0 else x.Floor
  }

  /** A left fold with `+` starting from 0. */
  function Sum(s: seq<real>): real
  {
    if |s| == 0 then 0.0 else Sum(s[..|s| - 1]) + s[|s| - 1]
  }

  function Negated(s: seq<real>): (r: seq<real>)
    ensures |r| == |s| && forall i :: 0 <= i < |s| ==> r[i] == -s[i]
  {
    seq(|s|, i requires 0 <= i < |s| => -s[i])
  }

  lemma {:induction false} SumNegated(s: seq<real>)
    ensures Sum(Negated(s)) == -Sum(s)
    decreases |s|
  {
    if |s| > 0 {
      var last := |s| - 1;
      assert Negated(s)[..last] == Negated(s[..last]);
      SumNegated(s[..last]);
    }
  }

  /** Every label read as an index into the probabilities is in range. */
  predicate LabelsIndexProbabilities(probabilities: seq<real>, labels: seq<real>)
  {
    forall n :: 0 <= n < |labels| ==> AsUsize(labels[n]) < |probabilities|
  }

  /** The probability picked out by each label, with no batch offset. */
  function Picked(probabilities: seq<real>, labels: seq<real>): (r: seq<real>)
    requires LabelsIndexProbabilities(probabilities, labels)
    ensures |r| == |labels| && forall n :: 0 <= n < |labels| ==> r[n] == probabilities[AsUsize(labels[n])]
  {
    seq(|labels|, n requires 0 <= n < |labels| => probabilities[AsUsize(labels[n])])
  }

  /** Where the gradient entry of label position `n` lies. */
  function LabelIndex(numClasses: nat, labels: seq<real>, n: nat): nat
    requires n < |labels|
  {
    numClasses * n + AsUsize(labels[n])
  }

  /** Whether one of the first `count` labels hits gradient position `j`. */
  predicate HitBy(numClasses: nat, labels: seq<real>, count: nat, j: nat)
    requires count <= |labels|
  {
    exists n :: 0 <= n < count && LabelIndex(numClasses, labels, n) == j
  }

  class NegativeLogLikelihoodLayer {
    const numClasses: nat

    /** `from_config`: the number of classes. */
    constructor FromConfig(numClasses: nat)
      ensures this.numClasses == numClasses
    {
      this.numClasses := numClasses;
    }

    /** Exactly one input and one output. */
    function Arity(): (r: BlobArity)
      ensures r.exactInputs == Some(1) && r.exactOutputs == Some(1)
    {
      LossArity
    }

    /**
     * `reshape`: the input gradient takes the shape of the data (input 0)
     * and the output takes the shape of the labels (input 1). Data and
     * labels stay read-locked, so neither is written.
     */
    method Reshape(inputData: seq<SharedTensor>, inputGradient: seq<SharedTensor>, outputData: seq<SharedTensor>)
      requires |inputData| >= 2 && |inputGradient| > 0 && |outputData| > 0
      requires inputGradient[0] !in inputData[..2] && outputData[0] !in inputData[..2]
      modifies inputGradient[0], outputData[0]
      ensures outputData[0].desc == inputData[1].desc && outputData[0].Valid()
      ensures inputGradient[0] != outputData[0] ==> inputGradient[0].desc == inputData[0].desc && inputGradient[0].Valid()
    {
      var data := inputData[0];
      var labelTensor := inputData[1];
      inputGradient[0].Resize(data.desc);
      outputData[0].Resize(labelTensor.desc);
    }

    /**
     * `compute_output`: the first output element becomes minus the sum of
     * the probabilities the labels point at, divided by the batch size of
     * the LABEL shape; the rest of the output is left alone.
     */
    method ComputeOutput(probabilities: SharedTensor, labels: SharedTensor, output: SharedTensor)
      requires BatchSize(labels.desc).Ok? && BatchSize(labels.desc).value > 0
      requires LabelsIndexProbabilities(probabilities.mem[..], labels.mem[..])
      requires output.mem.Length >= 1
      requires output.mem != labels.mem && output.mem != probabilities.mem
      modifies output.mem
      ensures output.mem[0] ==
        -Sum(Picked(old(probabilities.mem[..]), old(labels.mem[..]))) / (BatchSize(labels.desc).value as real)
      ensures output.mem[1..] == old(output.mem[1..])
    {
      var batchSize := BatchSize(labels.desc).value;
      var nativeLabels := labels.mem[..];
      var nativeProbabilities := probabilities.mem[..];
      var writableLoss: seq<real> := [];
      for n := 0 to |nativeLabels|
        invariant writableLoss == Negated(Picked(nativeProbabilities, nativeLabels[..n]))
      {
        var probabilityValue := nativeProbabilities[AsUsize(nativeLabels[n])];
        writableLoss := writableLoss + [-probabilityValue];
      }
      assert nativeLabels[..|nativeLabels|] == nativeLabels;
      SumNegated(Picked(nativeProbabilities, nativeLabels));
      var loss := Sum(writableLoss);
      loss := loss / (batchSize as real);
      Util.WriteToMemory(Util.Native(output.mem), [loss]);
    }

    /**
     * `compute_input_gradient`: a zeroed buffer the size of the gradient
     * tensor with -1 at `num_classes * n + label[n]` for every label
     * position `n`, copied into the gradient. The batch size of the data
     * is computed (and panics on other ranks) but not used.
     */
    method ComputeInputGradient(data: SharedTensor, labels: SharedTensor, inputGradient: SharedTensor)
      requires BatchSize(data.desc).Ok?
      requires inputGradient.Valid()
      requires forall n :: 0 <= n < labels.mem.Length ==> LabelIndex(numClasses, labels.mem[..], n) < Size(inputGradient.desc)
      requires labels.mem != inputGradient.mem
      modifies inputGradient.mem
      ensures forall j :: 0 <= j < inputGradient.mem.Length ==>
        inputGradient.mem[j] == if HitBy(numClasses, labels.mem[..], labels.mem.Length, j) then -1.0 else 0.0
    {
      var nativeLabels := labels.mem[..];
      var size := Size(inputGradient.desc);
      var writableGradient: seq<real> := seq(size, _ => 0.0);
      for n := 0 to |nativeLabels|
        invariant |writableGradient| == size
        invariant forall j :: 0 <= j < size ==>
          writableGradient[j] == if HitBy(numClasses, nativeLabels, n, j) then -1.0 else 0.0
      {
        var index := numClasses * n + AsUsize(nativeLabels[n]);
        assert index == LabelIndex(numClasses, nativeLabels, n);
        writableGradient := writableGradient[index := -1.0];
        forall j | 0 <= j < size
          ensures writableGradient[j] == if HitBy(numClasses, nativeLabels, n + 1, j) then -1.0 else 0.0
        {
          if j != index {
            if HitBy(numClasses, nativeLabels, n + 1, j) {
              var m :| 0 <= m < n + 1 && LabelIndex(numClasses, nativeLabels, m) == j;
              assert m < n;
            }
          }
        }
      }
      Util.WriteToMemory(Util.Native(inputGradient.mem), writableGradient);
      assert inputGradient.mem[..] == writableGradient;
    }
  }

  /** The loss of three labels over a batch of three: the mean of the picked probabilities, negated. */
  lemma LossOfThreeLabels()
    ensures -Sum(Picked([0.25, 0.5, 0.25], [1.0, 0.0, 1.0])) / 3.0 == -1.25 / 3.0
  {
    var picked := Picked([0.25, 0.5, 0.25], [1.0, 0.0, 1.0]);
    assert picked == [0.5, 0.25, 0.5];
    assert picked[..2] == [0.5, 0.25] && picked[..2][..1] == [0.5] && picked[..2][..1][..0] == [];
    assert Sum([0.5]) == 0.5;
    assert Sum([0.5, 0.25]) == 0.75;
    assert Sum(picked) == 1.25;
  }
}
