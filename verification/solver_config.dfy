/**
 * The solver configuration and its learning-rate schedule. The rate of
 * iteration `iter` is the base rate, scaled by `gamma` once per completed
 * step of `stepsize` iterations (Step) or once per iteration (Exp), or
 * left alone (Fixed). Rates are reals: `f32` rounding and `powf` are not
 * modelled.
 */
module SolverConfigs {
  import opened Wrappers

  datatype LRPolicy = Fixed | Step | Exp

  datatype SGDKind = Momentum

  datatype SolverKind = SGD(kind: SGDKind)

  datatype RegularizationMethod = L2

  /** `x` raised to the natural power `n`. */
  function Pow(x: real, n: nat): real
  {
    if n == 0 then 1.0 else Pow(x, n - 1) * x
  }

  lemma {:induction false} PowAdd(x: real, m: nat, n: nat)
    ensures Pow(x, m + n) == Pow(x, m) * Pow(x, n)
    decreases n
  {
    if n > 0 {
      PowAdd(x, m, n - 1);
    }
  }

  /** The training configuration; the network and objective layer configurations are not part of this model. */
  datatype SolverConfig = SolverConfig(
    name: string,
    solver: SolverKind,
    minibatchSize: nat,
    lrPolicy: LRPolicy,
    baseLr: real,
    gamma: real,
    stepsize: nat,
    clipGradients: Option<real>,
    weightDecay: Option<real>,
    regularizationMethod: Option<RegularizationMethod>,
    momentum: real)
  {
    /**
     * `step`: the number of whole steps of `stepsize` iterations completed
     * by `iter` (a division by zero panics), i.e. the index of the step
     * holding `iter`: that step starts at or before `iter` and the next
     * one after it.
     */
    function StepIndex(iter: nat): (r: nat)
      requires stepsize > 0
      ensures r * stepsize <= iter < (r + 1) * stepsize
    {
      iter / stepsize
    }

    /**
     * `get_learning_rate`; only the Step policy divides by `stepsize`.
     * Every policy starts at the base rate, and Step keeps it for the
     * whole first step.
     */
    function LearningRate(iter: nat): (r: real)
      requires lrPolicy == Step ==> stepsize > 0
      ensures iter == 0 ==> r == baseLr
      ensures lrPolicy == Step && iter < stepsize ==> r == baseLr
    {
      match lrPolicy
      case Fixed => baseLr
      case Step => baseLr * Pow(gamma, StepIndex(iter))
      case Exp => baseLr * Pow(gamma, iter)
    }
  }

  /** The defaults: SGD with momentum, minibatches of one, a fixed rate of 0.01, gamma 0.1, steps of 10. */
  function DefaultSolverConfig(): (c: SolverConfig)
    ensures c.name == "" && c.solver == SGD(Momentum) && c.minibatchSize == 1
    ensures c.lrPolicy == Fixed && c.baseLr == 0.01 && c.gamma == 0.1 && c.stepsize == 10
    ensures c.clipGradients.None? && c.weightDecay.None? && c.regularizationMethod.None? && c.momentum == 0.0
  {
    SolverConfig("", SGD(Momentum), 1, Fixed, 0.01, 0.1, 10, None, None, None, 0.0)
  }

  /** The default configuration trains at the rate 0.01 at every iteration. */
  lemma DefaultSchedule(iter: nat)
    ensures DefaultSolverConfig().LearningRate(iter) == 0.01
  {
  }

  /** Under the Fixed policy every iteration uses the base rate. */
  lemma FixedRateConstant(config: SolverConfig, i: nat, j: nat)
    requires config.lrPolicy == Fixed
    ensures config.LearningRate(i) == config.LearningRate(j) == config.baseLr
  {
  }

  /** Under the Exp policy the first rate is the base rate and each iteration multiplies the rate by `gamma`. */
  lemma ExpRateDecays(config: SolverConfig, iter: nat)
    requires config.lrPolicy == Exp
    ensures config.LearningRate(0) == config.baseLr
    ensures config.LearningRate(iter + 1) == config.LearningRate(iter) * config.gamma
  {
  }

  /** Under the Step policy the rate is the same for all iterations of one step. */
  lemma StepRateWithinStep(config: SolverConfig, i: nat, j: nat)
    requires config.lrPolicy == Step && config.stepsize > 0
    requires config.StepIndex(i) == config.StepIndex(j)
    ensures config.LearningRate(i) == config.LearningRate(j)
  {
  }

  /**
   * Under the Step policy the first step runs at the base rate, and
   * `stepsize` iterations later the next step runs at `gamma` times the rate.
   */
  lemma StepRateNextStep(config: SolverConfig, i: nat)
    requires config.lrPolicy == Step && config.stepsize > 0
    ensures i < config.stepsize ==> config.LearningRate(i) == config.baseLr
    ensures config.StepIndex(i + config.stepsize) == config.StepIndex(i) + 1
    ensures config.LearningRate(i + config.stepsize) == config.LearningRate(i) * config.gamma
  {
    var n := config.stepsize;
    var r := config.StepIndex(i);
    StepIndexUnique(config, i + n, r + 1);
    if i < n {
      StepIndexUnique(config, i, 0);
    }
    var p := Pow(config.gamma, r);
    assert config.LearningRate(i + n) == config.baseLr * (p * config.gamma);
  }

  /** The only step whose span holds `iter` is `step(iter)`. */
  lemma StepIndexUnique(config: SolverConfig, iter: nat, q: nat)
    requires config.stepsize > 0
    requires q * config.stepsize <= iter < (q + 1) * config.stepsize
    ensures config.StepIndex(iter) == q
  {
    var n := config.stepsize;
    var r := config.StepIndex(iter);
    MulMonotone(r, q, n);
    MulMonotone(q, r, n);
  }

  /** A product grows with its first factor, so whole steps are ordered like their indices. */
  lemma MulMonotone(a: nat, b: nat, n: nat)
    ensures a < b ==> (a + 1) * n <= b * n
  {
    if a < b {
      assert b * n == (a + 1) * n + (b - a - 1) * n;
    }
  }

  /** The Fixed schedule with base rate 5 stays at 5 at iterations 0, 100 and 1000. */
  lemma FixedExample()
    ensures var c := DefaultSolverConfig().(baseLr := 5.0);
      c.LearningRate(0) == 5.0 && c.LearningRate(100) == 5.0 && c.LearningRate(1000) == 5.0
  {
  }

  /** The Step schedule with base rate 5, gamma 0.5 and steps of 10 gives 5, 2.5 and 1.25 at iterations 0, 10 and 20. */
  lemma StepExample()
    ensures var c := DefaultSolverConfig().(lrPolicy := Step, baseLr := 5.0, gamma := 0.5, stepsize := 10);
      c.LearningRate(0) == 5.0 && c.LearningRate(10) == 2.5 && c.LearningRate(20) == 1.25
  {
    var c := DefaultSolverConfig().(lrPolicy := Step, baseLr := 5.0, gamma := 0.5, stepsize := 10);
    assert c.StepIndex(10) == 1 && c.StepIndex(20) == 2;
  }

  /** The Exp schedule with base rate 5: gamma 0.5 gives 5, 2.5, 1.25, 0.625; gamma 0.25 gives 5, 1.25, 0.3125. */
  lemma ExpExample()
    ensures var c := DefaultSolverConfig().(lrPolicy := Exp, baseLr := 5.0, gamma := 0.5);
      c.LearningRate(0) == 5.0 && c.LearningRate(1) == 2.5 && c.LearningRate(2) == 1.25 && c.LearningRate(3) == 0.625
    ensures var c := DefaultSolverConfig().(lrPolicy := Exp, baseLr := 5.0, gamma := 0.25);
      c.LearningRate(0) == 5.0 && c.LearningRate(1) == 1.25 && c.LearningRate(2) == 0.3125
  {
  }
}
