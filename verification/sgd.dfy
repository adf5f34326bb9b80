/**
 * The stochastic-gradient-descent worker shared by the SGD solvers. It
 * keeps one history tensor per learnable weight of the network and,
 * once per minibatch, clips the gradients and then, weight by weight,
 * normalises the gradient and computes the update. The numeric kernels
 * (the dot products, the scaling, the momentum update) run on a backend
 * that is not part of this model; the worker records which of them it
 * invokes, with which arguments, in `trace`. The sum of squares the
 * clipping should use is defined here (`GradientsSumSquares`), next to
 * the sum the code as written forms (`ClipSumAsWritten`).
 */
module Sgd {
  import opened Wrappers
  import opened Tensors
  import Layers
  import Weight
  import opened SolverConfigs

  /** A backend step of the worker: the clipping pass, the per-weight normalisation and the per-weight update. */
  datatype SgdCall =
    | ClipGradients(scale: Option<real>)
    | Normalize(weightId: nat, scale: Option<real>)
    | ComputeUpdateValue(weightId: nat, globalLr: real, blobLr: real)

  /**
   * The factor `clip_gradients` scales all gradients by: none without a
   * threshold or while the L2 norm stays within it, otherwise the one
   * that brings the norm down to the threshold. The norm is a square
   * root; a negative threshold over all-zero gradients, where `f32`
   * division yields an infinite factor, is excluded.
   */
  function ClipScale(threshold: Option<real>, l2norm: real): (r: Option<real>)
    requires l2norm >= 0.0
    requires threshold.Some? && threshold.value < 0.0 ==> l2norm > 0.0
    ensures r.Some? <==> threshold.Some? && l2norm > threshold.value
    ensures r.Some? ==> r.value * l2norm == threshold.value
  {
    match threshold
    case None => None
    case Some(t) => if l2norm > t then Some(t / l2norm) else None
  }

  /** The product of two reals. */
  function Product(a: real, b: real): real
  {
    a * b
  }

  /** The square of a real. */
  function Square(x: real): real
  {
    x * x
  }

  /** Two numbers of the same strict sign have a positive product. */
  lemma ProductPositive(a: real, b: real)
    requires (a > 0.0 && b > 0.0) || (a < 0.0 && b < 0.0)
    ensures Product(a, b) > 0.0
  {
  }

  /** A non-zero number has a positive square. */
  lemma SquarePositive(x: real)
    requires x != 0.0
    ensures Square(x) > 0.0
  {
    ProductPositive(x, x);
  }

  /**
   * The sum of squares of a gradient's elements: what `dot(g, g)` computes.
   * It is never negative and is zero exactly when every element is.
   */
  function SumSquares(s: seq<real>): (r: real)
    ensures r >= 0.0
    ensures r == 0.0 <==> forall k :: 0 <= k < |s| ==> s[k] == 0.0
  {
    if |s| == 0 then 0.0
    else
      var init, x := s[..|s| - 1], s[|s| - 1];
      if x != 0.0 then
        SquarePositive(x);
        assert s[|s| - 1] != 0.0;
        SumSquares(init) + Square(x)
      else
        assert forall k :: 0 <= k < |init| ==> init[k] == s[k];
        SumSquares(init) + Square(x)
  }

  /**
   * The intended input of `clip_gradients`: the sum over all weight
   * gradients of their dot product with themselves, i.e. the squared L2
   * norm of all gradients together. It is zero exactly when every
   * gradient is zero.
   */
  function GradientsSumSquares(gradients: seq<seq<real>>): (r: real)
    ensures r >= 0.0
    ensures r == 0.0 <==> forall i, k :: 0 <= i < |gradients| && 0 <= k < |gradients[i]| ==> gradients[i][k] == 0.0
  {
    if |gradients| == 0 then 0.0
    else
      var init := gradients[..|gradients| - 1];
      assert forall i :: 0 <= i < |init| ==> init[i] == gradients[i];
      GradientsSumSquares(init) + SumSquares(gradients[|gradients| - 1])
  }

  /** The sum of a list of values. */
  function Total(s: seq<real>): real
  {
    if |s| == 0 then 0.0 else Total(s[..|s| - 1]) + s[|s| - 1]
  }

  /**
   * The input of `clip_gradients` as written: each gradient's dot product
   * is written into a one-element tensor that the next statement replaces
   * by a freshly allocated one, and it is the fresh tensor's element that
   * is summed. `freshValues[i]` is what the fresh tensor made for gradient
   * `i` holds; the gradients themselves do not enter the sum.
   */
  function ClipSumAsWritten(gradients: seq<seq<real>>, freshValues: seq<real>): real
    requires |freshValues| == |gradients|
  {
    Total(freshValues)
  }

  /**
   * A single gradient `[3.0]` has L2 norm 3, so a threshold of 1 should
   * scale it by 1/3; as written, with fresh tensors holding 0, the summed
   * value is 0 for it just as for a zero gradient, and nothing is clipped.
   */
  lemma ClipIgnoresGradients()
    ensures ClipSumAsWritten([[3.0]], [0.0]) == ClipSumAsWritten([[0.0]], [0.0]) == 0.0
    ensures GradientsSumSquares([[3.0]]) == 9.0 && GradientsSumSquares([[0.0]]) == 0.0
    ensures ClipScale(Some(1.0), 0.0).None?
    ensures ClipScale(Some(1.0), 3.0) == Some(1.0 / 3.0)
  {
    assert [3.0][..0] == [] && [[3.0]][..0] == [];
    assert [0.0][..0] == [] && [[0.0]][..0] == [];
  }

  /** The contents of each tensor's native memory, in order. */
  ghost function Contents(ts: seq<SharedTensor>): (r: seq<seq<real>>)
    reads set t | t in ts, set t | t in ts :: t.mem
    ensures |r| == |ts| && forall i :: 0 <= i < |ts| ==> r[i] == ts[i].mem[..]
  {
    if |ts| == 0 then [] else Contents(ts[..|ts| - 1]) + [ts[|ts| - 1].mem[..]]
  }

  /**
   * The factor `normalize` scales a gradient by: none for minibatches of
   * at most one sample, otherwise the reciprocal of the minibatch size.
   */
  function NormalizeScale(minibatchSize: nat): (r: Option<real>)
    ensures r.Some? <==> minibatchSize > 1
    ensures r.Some? ==> r.value * (minibatchSize as real) == 1.0
  {
    if minibatchSize > 1 then Some(1.0 / minibatchSize as real) else None
  }

  /** The per-weight steps for the first `n` weights, in weight order. */
  function WeightCalls(config: SolverConfig, rate: real, lr: seq<Option<real>>, n: nat): seq<SgdCall>
    requires n <= |lr| && forall i :: 0 <= i < n ==> lr[i].Some?
  {
    if n == 0 then
      []
    else
      WeightCalls(config, rate, lr, n - 1) +
      [Normalize(n - 1, NormalizeScale(config.minibatchSize)), ComputeUpdateValue(n - 1, rate, lr[n - 1].value)]
  }

  /** The steps of one `compute_update` over `n` weights at the global rate `rate`, after clipping by `clip`. */
  function UpdateOrder(config: SolverConfig, clip: Option<real>, rate: real, lr: seq<Option<real>>, n: nat): seq<SgdCall>
    requires n <= |lr| && forall i :: 0 <= i < n ==> lr[i].Some?
  {
    [ClipGradients(clip)] + WeightCalls(config, rate, lr, n)
  }

  /**
   * Clipping comes first; then weight `i` is normalised and then updated,
   * at the global rate and its own rate multiplier, before weight `i + 1`
   * is touched.
   */
  lemma {:induction false} UpdateOrderShape(config: SolverConfig, clip: Option<real>, rate: real, lr: seq<Option<real>>, n: nat)
    requires n <= |lr| && forall i :: 0 <= i < n ==> lr[i].Some?
    ensures var calls := UpdateOrder(config, clip, rate, lr, n);
      |calls| == 1 + 2 * n &&
      calls[0] == ClipGradients(clip) &&
      forall i :: 0 <= i < n ==>
        calls[1 + 2 * i] == Normalize(i, NormalizeScale(config.minibatchSize)) &&
        calls[2 + 2 * i] == ComputeUpdateValue(i, rate, lr[i].value)
  {
    WeightCallsShape(config, rate, lr, n);
  }

  lemma {:induction false} WeightCallsShape(config: SolverConfig, rate: real, lr: seq<Option<real>>, n: nat)
    requires n <= |lr| && forall i :: 0 <= i < n ==> lr[i].Some?
    ensures var calls := WeightCalls(config, rate, lr, n);
      |calls| == 2 * n &&
      forall i :: 0 <= i < n ==>
        calls[2 * i] == Normalize(i, NormalizeScale(config.minibatchSize)) &&
        calls[2 * i + 1] == ComputeUpdateValue(i, rate, lr[i].value)
  {
    if n > 0 {
      WeightCallsShape(config, rate, lr, n - 1);
    }
  }

  /** Every element of the tensor's native memory is zero. */
  ghost predicate Zeroed(t: SharedTensor)
    reads t, t.mem
  {
    forall i :: 0 <= i < t.mem.Length ==> t.mem[i] == 0.0
  }

  /** The SGD-with-momentum worker: its history tensors and the backend steps it has issued. */
  class SgdSolver {
    var history: seq<SharedTensor>
    var trace: seq<SgdCall>

    /** `Momentum::new`: no history yet. */
    constructor ()
      ensures history == [] && trace == []
    {
      history := [];
      trace := [];
    }

    /**
     * `init`: a new history of one tensor per learnable weight gradient of
     * `net`, in the same order, each of that gradient's shape and filled
     * with zeros.
     */
    method Init(net: Layers.Layer)
      modifies this
      ensures |history| == |net.learnableWeightsGradients|
      ensures forall i :: 0 <= i < |history| ==>
        fresh(history[i]) && fresh(history[i].mem) &&
        history[i].Valid() && history[i].desc == net.learnableWeightsGradients[i].desc && Zeroed(history[i])
      ensures trace == old(trace)
    {
      var gradients := net.learnableWeightsGradients;
      history := [];
      for k := 0 to |gradients|
        invariant |history| == k
        invariant forall i :: 0 <= i < k ==>
          fresh(history[i]) && fresh(history[i].mem) &&
          history[i].Valid() && history[i].desc == gradients[i].desc && Zeroed(history[i])
        invariant trace == old(trace)
      {
        var tensor := new SharedTensor(gradients[k].desc);
        Weight.FillConstant(tensor, 0.0);
        history := history + [tensor];
      }
    }

    /**
     * `compute_update`: takes the rate of iteration `iter` once, clips by
     * the factor the gradients' L2 norm `l2norm` calls for and then, for
     * each learnable weight gradient in order, normalises it and computes
     * its update from its history tensor. Reading the history of a weight
     * without one, or a weight without a rate multiplier, panics. The
     * clipping here uses the intended norm, not the sum the code as
     * written forms (`ClipSumAsWritten`): `l2norm` is the non-negative
     * number whose square is the sum of squares of all gradient elements
     * (`GradientsSumSquares`); the square root itself is left to the caller.
     */
    method ComputeUpdate(config: SolverConfig, net: Layers.Layer, iter: nat, l2norm: real)
      requires config.lrPolicy == Step ==> config.stepsize > 0
      requires l2norm >= 0.0 && l2norm * l2norm == GradientsSumSquares(Contents(net.learnableWeightsGradients))
      requires config.clipGradients.Some? && config.clipGradients.value < 0.0 ==> l2norm > 0.0
      requires |net.learnableWeightsGradients| <= |history|
      requires |net.learnableWeightsGradients| <= |net.learnableWeightsLr|
      requires forall i :: 0 <= i < |net.learnableWeightsGradients| ==> net.learnableWeightsLr[i].Some?
      modifies this
      ensures history == old(history)
      ensures trace == old(trace) + UpdateOrder(config, ClipScale(config.clipGradients, l2norm),
        config.LearningRate(iter), net.learnableWeightsLr, |net.learnableWeightsGradients|)
    {
      var rate := config.LearningRate(iter);
      var clip := ClipScale(config.clipGradients, l2norm);
      var lr := net.learnableWeightsLr;
      var n := |net.learnableWeightsGradients|;
      trace := trace + [ClipGradients(clip)];
      for weightId := 0 to n
        invariant history == old(history)
        invariant trace == old(trace) + [ClipGradients(clip)] + WeightCalls(config, rate, lr, weightId)
      {
        trace := trace + [Normalize(weightId, NormalizeScale(config.minibatchSize))];
        trace := trace + [ComputeUpdateValue(weightId, rate, lr[weightId].value)];
      }
    }
  }
}
