/**
 * The solver: a network under training, an objective layer that turns
 * its output into a loss, an SGD worker and the iteration counter. One
 * minibatch clears the weight gradients, runs the network and the
 * objective forward and then backward, lets the worker compute the
 * weight updates at the current iteration's learning rate, applies them
 * and counts the iteration. The layers' own passes live in code that is
 * not part of this model: what they return is given, and the solver
 * records the calls it makes on them in `trace`.
 */
module Solvers {
  import opened Wrappers
  import opened Tensors
  import opened Seqs
  import Layers
  import opened SolverConfigs
  import Sgd

  /** A call the solver makes on its network, its objective or the network's weights. */
  datatype SolverCall =
    | ClearWeightsGradients
    | NetForward(input: SharedTensor)
    | ObjectiveForward(output: SharedTensor, target: SharedTensor)
    | ObjectiveBackward
    | NetBackward(outputGradients: seq<SharedTensor>)
    | ComputeUpdate(iter: nat)
    | UpdateWeights

  /** The calls of one minibatch at iteration `iter`, in the order `train_minibatch` makes them. */
  function MinibatchOrder(data: SharedTensor, target: SharedTensor, output: SharedTensor,
                          outputGradient: SharedTensor, iter: nat): seq<SolverCall>
  {
    [ClearWeightsGradients, NetForward(data), ObjectiveForward(output, target),
     ObjectiveBackward, NetBackward([outputGradient]), ComputeUpdate(iter), UpdateWeights]
  }

  /**
   * Within a minibatch the weight gradients are cleared before anything
   * runs, both forward passes precede both backward passes, the update is
   * computed from the finished gradients at iteration `iter`, and the
   * weights change last.
   */
  lemma MinibatchOrderShape(data: SharedTensor, target: SharedTensor, output: SharedTensor,
                            outputGradient: SharedTensor, iter: nat)
    ensures var calls := MinibatchOrder(data, target, output, outputGradient, iter);
      |calls| == 7 && calls[0] == ClearWeightsGradients && calls[|calls| - 1] == UpdateWeights &&
      (forall i :: 0 <= i < |calls| && calls[i].ComputeUpdate? ==> i == 5 && calls[i].iter == iter) &&
      (forall i, j ::
         0 <= i < |calls| && 0 <= j < |calls| && (calls[i].NetForward? || calls[i].ObjectiveForward?) &&
         (calls[j].ObjectiveBackward? || calls[j].NetBackward?)
         ==> i < j) &&
      (forall i :: 0 <= i < |calls| && (calls[i].ObjectiveBackward? || calls[i].NetBackward?) ==> i < 5)
  {
  }

  class Solver {
    const net: Layers.Layer
    const objective: Layers.Layer
    const worker: Sgd.SgdSolver
    const config: SolverConfig
    var iter: nat
    var trace: seq<SolverCall>

    /** The worker holds a history tensor for every learnable weight gradient of the network. */
    ghost predicate Valid()
      reads this, worker, net
    {
      worker != net as object && |worker.history| == |net.learnableWeightsGradients|
    }

    /**
     * `from_config`: a worker of the configured kind, initialised on the
     * network (one zeroed history tensor per weight gradient), and the
     * iteration counter at 0. Building the two layers from their
     * configurations is not part of this model; they are given.
     */
    constructor FromConfig(network: Layers.Layer, objectiveLayer: Layers.Layer, solverConfig: SolverConfig)
      ensures Valid() && fresh(worker)
      ensures net == network && objective == objectiveLayer && config == solverConfig
      ensures iter == 0 && trace == [] && worker.trace == []
      ensures forall i :: 0 <= i < |worker.history| ==>
        fresh(worker.history[i]) && worker.history[i].desc == net.learnableWeightsGradients[i].desc &&
        Sgd.Zeroed(worker.history[i])
    {
      net := network;
      objective := objectiveLayer;
      config := solverConfig;
      var sgd := new Sgd.SgdSolver();
      sgd.Init(network);
      worker := sgd;
      iter := 0;
      trace := [];
    }

    /**
     * `train_minibatch`: the minibatch's calls in order, the worker's
     * update at the current iteration, and the counter advanced by one.
     * `netOutputs` is what the network's forward pass returns,
     * `objectiveGradients` what the objective's backward pass returns and
     * `l2norm` the intended L2 norm of the weight gradients, the square
     * root of `GradientsSumSquares` of their contents, which the worker
     * clips by;
     * taking the first element of an empty result panics. The passes are
     * recorded, not run, so the gradient tensors already hold what the
     * backward passes leave in them. The network's first output is
     * returned.
     */
    method TrainMinibatch(data: SharedTensor, target: SharedTensor, netOutputs: seq<SharedTensor>,
                          objectiveGradients: seq<SharedTensor>, l2norm: real) returns (output: SharedTensor)
      requires Valid()
      requires |netOutputs| >= 1 && |objectiveGradients| >= 1
      requires config.lrPolicy == Step ==> config.stepsize > 0
      requires |net.learnableWeightsGradients| <= |net.learnableWeightsLr|
      requires forall i :: 0 <= i < |net.learnableWeightsGradients| ==> net.learnableWeightsLr[i].Some?
      requires l2norm >= 0.0 && l2norm * l2norm == Sgd.GradientsSumSquares(Sgd.Contents(net.learnableWeightsGradients))
      requires config.clipGradients.Some? && config.clipGradients.value < 0.0 ==> l2norm > 0.0
      modifies this, worker
      ensures Valid()
      ensures output == netOutputs[0]
      ensures iter == old(iter) + 1
      ensures trace == old(trace) + MinibatchOrder(data, target, output, objectiveGradients[0], old(iter))
      ensures worker.history == old(worker.history)
      ensures worker.trace == old(worker.trace) + Sgd.UpdateOrder(config, Sgd.ClipScale(config.clipGradients, l2norm),
        config.LearningRate(old(iter)), net.learnableWeightsLr, |net.learnableWeightsGradients|)
    {
      output := netOutputs[0];
      var outputGradients := objectiveGradients[..1];
      assert outputGradients == [objectiveGradients[0]];
      var calls := [ClearWeightsGradients, NetForward(data), ObjectiveForward(output, target),
                    ObjectiveBackward, NetBackward(outputGradients), ComputeUpdate(iter)];
      worker.ComputeUpdate(config, net, iter, l2norm);
      trace := trace + calls + [UpdateWeights];
      iter := iter + 1;
    }
  }
}
