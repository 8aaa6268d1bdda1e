/** The three single-network agents: fixed epsilon-greedy, annealing epsilon-greedy and
    dropout. They share the weights, the history buffers and the update, and differ in
    the forward/backward pair (dropout) and in `pick_action`; the variant is a `Policy`
    value fixed at construction. */
module SingleModel {
  import opened Algebra
  import opened Network
  import opened Sgd
  import opened Selection
  import opened Buffers

  /** Which of the three single-network agents this is, with its own parameter. */
  datatype Policy =
    | EpsilonGreedy(epsilon: real)
    | AnnealingEpsilonGreedy(epsilonParam: real)
    | DropoutSampling(dropProb: real)
  {
    /** The dropout agent trains and acts with the dropout network; the others with the
        plain one. */
    function Net(): Net
    {
      if DropoutSampling? then Dropout(dropProb) else Plain
    }
  }

  /** The scale of the random initial weights. */
  const InitScale: real := 0.01

  class SingleModelAgent {
    const inputDim: nat
    const hiddenDim: nat
    const actions: Matrix
    const horizon: nat
    const hyper: Hyper
    const policy: Policy
    const numGradientSteps: nat
    const lrDecay: real
    var lr: real

    /** Layer weights: `w1` is hidden x input, `w2` has one entry per hidden unit. */
    const w1: array2<real>
    const w2: array<real>
    /** Pre-allocated history: one action row and one reward per time step. */
    const actionHist: array2<real>
    const rewardHist: array<real>

    /** The fixed shapes of every buffer, none of them shared. */
    ghost predicate Valid()
    {
      w1.Length0 == hiddenDim && w1.Length1 == inputDim && w2.Length == hiddenDim
      && actionHist.Length0 == horizon && actionHist.Length1 == inputDim
      && rewardHist.Length == horizon
      && w1 != actionHist && w2 != rewardHist
      && HasWidth(actions, inputDim)
    }

    /** The current weights. */
    function Model(): (w: Weights)
      requires Valid()
      reads w1, w2
      ensures WellShaped(w, hiddenDim, inputDim)
    {
      Weights(MatrixOf(w1), w2[..])
    }

    function History(): Matrix
      reads actionHist
    {
      MatrixOf(actionHist)
    }

    function Rewards(): Vector
      reads rewardHist
    {
      rewardHist[..]
    }

    /** The scores `pick_action` takes the arg-max of: the forward pass over the agent's
        actions, with the keep mask drawn from `keep` for the dropout agent. */
    function Scores(keep: Matrix): (s: Vector)
      requires Valid()
      requires policy.DropoutSampling? ==> IsShape(keep, |actions|, hiddenDim)
      reads w1, w2
      ensures |s| == |actions|
    {
      Predict(policy.Net(), hyper, Model(), actions, keep)
    }

    /** Whether `pick_action` at step `t` with uniform draw `u` takes the exploration
        branch (never, for the dropout agent). */
    function Explores(t: nat, u: real): bool
    {
      match policy
      case EpsilonGreedy(epsilon) => u < epsilon
      case AnnealingEpsilonGreedy(epsilonParam) =>
        var e := AnnealedEpsilon(epsilonParam, t);
        e.Some? && u < e.value
      case DropoutSampling(_) => false
    }

    /** Weights `0.01 * init1`, `0.01 * init2` (the caller's standard-normal draws) and
        all-zero history buffers of length `timeHorizon`. */
    constructor (inputDim: nat, hiddenDim: nat, actions: Matrix, timeHorizon: nat,
                 priorVar: real, noiseVar: real, policy: Policy, learningRate: real,
                 numGradientSteps: nat, batchSize: nat, lrDecay: real, leakyCoeff: real,
                 init1: Matrix, init2: Vector)
      requires IsShape(init1, hiddenDim, inputDim) && |init2| == hiddenDim
      requires HasWidth(actions, inputDim)
      ensures this.inputDim == inputDim && this.hiddenDim == hiddenDim
      ensures Valid()
      ensures fresh(w1) && fresh(w2) && fresh(actionHist) && fresh(rewardHist)
      ensures this.actions == actions && horizon == timeHorizon && this.policy == policy
      ensures hyper == Hyper(priorVar, noiseVar, leakyCoeff, batchSize)
      ensures lr == learningRate && this.lrDecay == lrDecay && this.numGradientSteps == numGradientSteps
      ensures forall k, j :: 0 <= k < hiddenDim && 0 <= j < inputDim ==> w1[k, j] == InitScale * init1[k][j]
      ensures forall k :: 0 <= k < hiddenDim ==> w2[k] == InitScale * init2[k]
      ensures IsZeroMatrix(History()) && IsZeroVector(Rewards())
    {
      this.inputDim := inputDim;
      this.hiddenDim := hiddenDim;
      this.actions := actions;
      horizon := timeHorizon;
      hyper := Hyper(priorVar, noiseVar, leakyCoeff, batchSize);
      this.policy := policy;
      lr := learningRate;
      this.numGradientSteps := numGradientSteps;
      this.lrDecay := lrDecay;
      w1 := new real[hiddenDim, inputDim]((k, j) requires 0 <= k < hiddenDim && 0 <= j < inputDim =>
                                            InitScale * init1[k][j]);
      w2 := new real[hiddenDim](k requires 0 <= k < hiddenDim => InitScale * init2[k]);
      actionHist := new real[timeHorizon, inputDim]((i, j) => 0.0);
      rewardHist := new real[timeHorizon](i => 0.0);
    }

    /** `W -= lr * d`, in place, for both layers. */
    method DescendInPlace(d: Weights)
      requires Valid() && ShapedLike(d, Model())
      modifies w1, w2
      ensures Model() == Descend(old(Model()), d, lr)
    {
      SubScaledInPlace2(w1, lr, d.w1);
      SubScaledInPlace(w2, lr, d.w2);
    }

    /** One pass of the loop body of `_update_model(t)`, toward the zero prior. */
    method GradientStep(t: nat, d: Draw)
      requires Valid() && hyper.Sound() && t < horizon
      requires ValidDraw(policy.Net(), d, t, hiddenDim, hyper.batchSize)
      modifies w1, w2
      ensures Model() == SgdStep(policy.Net(), hyper, lr, t, old(Model()), ZeroLike(old(Model())),
                                 History(), Rewards(), d)
    {
      var net := policy.Net();
      var w := Model();
      var x := Gather(History(), d.batch);
      var y := Gather(Rewards(), d.batch);
      var g := DataGradient(net, hyper, w, x, y, d.keep);
      var reg := RegularisedGradient(g, w, ZeroLike(w), hyper.batchSize, RegCoeff(hyper.priorVar, t));
      DescendInPlace(reg);
    }

    /** `_update_model(t)`: one regularised gradient step toward zero per draw, each on a
        minibatch of the history slots `0..t`. */
    method UpdateModel(t: nat, draws: seq<Draw>)
      requires Valid() && t < horizon && |draws| == numGradientSteps
      requires numGradientSteps > 0 ==> hyper.Sound()
      requires ValidDraws(policy.Net(), draws, t, hiddenDim, hyper.batchSize)
      modifies w1, w2
      ensures Model() == SgdSteps(policy.Net(), hyper, lr, t, old(Model()), ZeroLike(old(Model())),
                                  History(), Rewards(), draws)
    {
      ghost var zero := ZeroLike(Model());
      var i := 0;
      while i < |draws|
        invariant 0 <= i <= |draws|
        invariant SgdSteps(policy.Net(), hyper, lr, t, Model(), zero, History(), Rewards(), draws[i..])
               == SgdSteps(policy.Net(), hyper, lr, t, old(Model()), zero, History(), Rewards(), draws)
      {
        ZeroLikeOfShape(Model(), old(Model()));
        GradientStep(t, draws[i]);
        assert draws[i..][1..] == draws[i + 1..];
        i := i + 1;
      }
    }

    /** Write the action's row and the reward into history slot `t`. */
    method Record(t: nat, action: nat, reward: real)
      requires Valid() && t < horizon && action < |actions|
      modifies actionHist, rewardHist
      ensures History() == old(History())[t := actions[action]]
      ensures Rewards() == old(Rewards())[t := reward]
    {
      WriteRow(actionHist, t, actions[action]);
      rewardHist[t] := reward;
    }

    /** `update_observation(t, action, reward)`: record the action's row and the reward
        in slot `t`, run the update, then decay the learning rate once. */
    method UpdateObservation(t: nat, action: nat, reward: real, draws: seq<Draw>)
      requires Valid() && t < horizon && action < |actions| && |draws| == numGradientSteps
      requires numGradientSteps > 0 ==> hyper.Sound()
      requires ValidDraws(policy.Net(), draws, t, hiddenDim, hyper.batchSize)
      modifies w1, w2, actionHist, rewardHist, this`lr
      ensures History() == old(History())[t := actions[action]]
      ensures Rewards() == old(Rewards())[t := reward]
      ensures Model() == SgdSteps(policy.Net(), hyper, old(lr), t, old(Model()), ZeroLike(old(Model())),
                                  History(), Rewards(), draws)
      ensures lr == old(lr) * lrDecay
    {
      Record(t, action, reward);
      UpdateModel(t, draws);
      lr := lr * lrDecay;
    }

    /** `pick_action(t)`, with the random draws as parameters: `u` from `rd.rand()`,
        `randomAction` from `rd.randint(num_actions)`, and the dropout agent's uniform
        draws `keep` for its mask. `None` is the annealing agent's division by zero. */
    method PickAction(t: nat, u: real, randomAction: nat, keep: Matrix) returns (choice: Option<nat>)
      requires Valid() && |actions| > 0
      requires 0.0 <= u < 1.0 && randomAction < |actions|
      requires policy.DropoutSampling? ==> IsShape(keep, |actions|, hiddenDim)
      ensures choice.None? <==> policy.AnnealingEpsilonGreedy? && policy.epsilonParam + t as real == 0.0
      ensures choice.Some? && Explores(t, u) ==> choice.value == randomAction
      ensures choice.Some? && !Explores(t, u) ==> IsFirstMax(Scores(keep), choice.value)
      ensures policy.EpsilonGreedy? && policy.epsilon <= 0.0 ==>
                choice.Some? && IsFirstMax(Scores(keep), choice.value)
      ensures policy.DropoutSampling? && AllAbove(keep, policy.dropProb) ==>
                choice.Some? && IsFirstMax(Forward(actions, Model(), hyper.leaky).out, choice.value)
    {
      match policy {
        case EpsilonGreedy(epsilon) =>
          if u < epsilon {
            choice := Some(randomAction);
          } else {
            choice := Some(ArgMax(Scores(keep)));
          }
        case AnnealingEpsilonGreedy(epsilonParam) =>
          var e := AnnealedEpsilon(epsilonParam, t);
          if e.None? {
            choice := None;
          } else if u < e.value {
            choice := Some(randomAction);
          } else {
            choice := Some(ArgMax(Scores(keep)));
          }
        case DropoutSampling(p) =>
          choice := Some(ArgMax(Scores(keep)));
          if AllAbove(keep, p) {
            KeepMaskAllKept(keep, p);
            AllKeptForwardIsPlain(actions, Model(), hyper.leaky, KeepMask(keep, p));
          }
      }
    }
  }
}
