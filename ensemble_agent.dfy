/** The ensemble sampling agent: `M` networks of one shape, each with its own random
    prior snapshot, each trained toward its prior on its own perturbed copy of the
    rewards; `pick_action` acts greedily for one member drawn at random. */
module Ensemble {
  import opened Algebra
  import opened Network
  import opened Sgd
  import opened Selection
  import opened Buffers

  /** `reward + noise_std * noise[m]` for every member `m`: the rewards the members record. */
  function PerturbedRewards(reward: real, noiseStd: real, noise: seq<real>): (r: seq<real>)
    ensures |r| == |noise|
  {
    seq(|noise|, m requires 0 <= m < |noise| => reward + noiseStd * noise[m])
  }

  class EnsembleAgent {
    const numModels: nat
    const inputDim: nat
    const hiddenDim: nat
    const actions: Matrix
    const horizon: nat
    const hyper: Hyper
    const numGradientSteps: nat
    const lrDecay: real
    /** `np.sqrt(noise_var)`, the scale of the per-member reward noise. */
    const noiseStd: real
    var lr: real

    /** Member `m`'s prior snapshot and current weights: slice `m` of each array. */
    const w1Prior: array3<real>
    const w2Prior: array2<real>
    const w1: array3<real>
    const w2: array2<real>
    /** Pre-allocated history: the action rows, shared, and one perturbed reward row per
        member. */
    const actionHist: array2<real>
    const rewardHist: array2<real>

    /** The fixed shapes of every buffer, no two buffers shared, and the noise scale the
        square root of the noise variance. */
    ghost predicate Valid()
    {
      w1Prior.Length0 == numModels && w1Prior.Length1 == hiddenDim && w1Prior.Length2 == inputDim
      && w1.Length0 == numModels && w1.Length1 == hiddenDim && w1.Length2 == inputDim
      && w2Prior.Length0 == numModels && w2Prior.Length1 == hiddenDim
      && w2.Length0 == numModels && w2.Length1 == hiddenDim
      && actionHist.Length0 == horizon && actionHist.Length1 == inputDim
      && rewardHist.Length0 == numModels && rewardHist.Length1 == horizon
      && w1 != w1Prior
      && w2 != w2Prior && w2 != actionHist && w2 != rewardHist
      && w2Prior != actionHist && w2Prior != rewardHist && actionHist != rewardHist
      && HasWidth(actions, inputDim)
      && noiseStd >= 0.0 && noiseStd * noiseStd == hyper.noiseVar
    }

    /** The current weights of member `m`: `W1[m]`, `W2[m]`. */
    function Member(m: nat): (w: Weights)
      requires Valid() && m < numModels
      reads w1, w2
      ensures WellShaped(w, hiddenDim, inputDim)
    {
      Weights(SliceOf(w1, m), RowOf(w2, m))
    }

    /** The prior snapshot of member `m`: `W1_model_prior[m]`, `W2_model_prior[m]`. */
    function Prior(m: nat): (w: Weights)
      requires Valid() && m < numModels
      reads w1Prior, w2Prior
      ensures WellShaped(w, hiddenDim, inputDim)
    {
      Weights(SliceOf(w1Prior, m), RowOf(w2Prior, m))
    }

    function History(): (h: Matrix)
      reads actionHist
      ensures IsShape(h, actionHist.Length0, actionHist.Length1)
    {
      MatrixOf(actionHist)
    }

    /** The perturbed rewards member `m` trains on: `model_reward_hist[m]`. */
    function RewardRow(m: nat): (r: Vector)
      requires Valid() && m < numModels
      reads rewardHist
      ensures |r| == horizon
    {
      RowOf(rewardHist, m)
    }

    /** The scores of member `m` over the agent's actions. */
    function Scores(m: nat): (s: Vector)
      requires Valid() && m < numModels
      reads w1, w2
      ensures |s| == |actions|
    {
      Forward(actions, Member(m), hyper.leaky).out
    }

    /** Priors `prior_std * init` from the caller's standard-normal draws, with
        `prior_std * prior_std == prior_var`; every member starts at its prior, and the
        history buffers are all zero. */
    constructor (inputDim: nat, hiddenDim: nat, actions: Matrix, timeHorizon: nat,
                 priorVar: real, noiseVar: real, numModels: nat, learningRate: real,
                 numGradientSteps: nat, batchSize: nat, lrDecay: real, leakyCoeff: real,
                 priorStd: real, noiseStd: real, init1: seq<Matrix>, init2: Matrix)
      requires IsShape3(init1, numModels, hiddenDim, inputDim)
      requires IsShape(init2, numModels, hiddenDim)
      requires HasWidth(actions, inputDim)
      requires priorStd >= 0.0 && priorStd * priorStd == priorVar
      requires noiseStd >= 0.0 && noiseStd * noiseStd == noiseVar
      ensures this.numModels == numModels && this.inputDim == inputDim && this.hiddenDim == hiddenDim
      ensures Valid()
      ensures fresh(w1Prior) && fresh(w2Prior) && fresh(w1) && fresh(w2)
      ensures fresh(actionHist) && fresh(rewardHist)
      ensures this.actions == actions && horizon == timeHorizon
      ensures hyper == Hyper(priorVar, noiseVar, leakyCoeff, batchSize) && this.noiseStd == noiseStd
      ensures lr == learningRate && this.lrDecay == lrDecay && this.numGradientSteps == numGradientSteps
      ensures forall m, k, j :: 0 <= m < numModels && 0 <= k < hiddenDim && 0 <= j < inputDim ==>
                w1Prior[m, k, j] == priorStd * init1[m][k][j]
      ensures forall m, k :: 0 <= m < numModels && 0 <= k < hiddenDim ==> w2Prior[m, k] == priorStd * init2[m][k]
      ensures forall m :: 0 <= m < numModels ==> Member(m) == Prior(m)
      ensures IsZeroMatrix(History())
      ensures forall m :: 0 <= m < numModels ==> IsZeroVector(RewardRow(m))
    {
      this.numModels := numModels;
      this.inputDim := inputDim;
      this.hiddenDim := hiddenDim;
      this.actions := actions;
      horizon := timeHorizon;
      hyper := Hyper(priorVar, noiseVar, leakyCoeff, batchSize);
      lr := learningRate;
      this.numGradientSteps := numGradientSteps;
      this.lrDecay := lrDecay;
      this.noiseStd := noiseStd;
      var p1 := new real[numModels, hiddenDim, inputDim]((m, k, j)
        requires 0 <= m < numModels && 0 <= k < hiddenDim && 0 <= j < inputDim => priorStd * init1[m][k][j]);
      var p2 := new real[numModels, hiddenDim]((m, k)
        requires 0 <= m < numModels && 0 <= k < hiddenDim => priorStd * init2[m][k]);
      var c1 := Copy3(p1);
      var c2 := Copy2(p2);
      w1Prior, w2Prior, w1, w2 := p1, p2, c1, c2;
      actionHist := new real[timeHorizon, inputDim]((i, j) => 0.0);
      rewardHist := new real[numModels, timeHorizon]((m, i) => 0.0);
    }

    /** `W1[m] -= lr * d.w1; W2[m] -= lr * d.w2`; the other members are left as they were. */
    method DescendMember(m: nat, d: Weights)
      requires Valid() && m < numModels && ShapedLike(d, Member(m))
      modifies w1, w2
      ensures Member(m) == Descend(old(Member(m)), d, lr)
      ensures forall n :: 0 <= n < numModels && n != m ==> Member(n) == old(Member(n))
    {
      SubScaledSliceInPlace(w1, m, lr, d.w1);
      SubScaledRowInPlace(w2, m, lr, d.w2);
    }

    /** One pass of the loop body of `_update_model(m, t)`, toward member `m`'s prior and
        on its own rewards. */
    method GradientStep(m: nat, t: nat, d: Draw)
      requires Valid() && hyper.Sound() && m < numModels && t < horizon
      requires ValidDraw(Plain, d, t, hiddenDim, hyper.batchSize)
      modifies w1, w2
      ensures Member(m) == SgdStep(Plain, hyper, lr, t, old(Member(m)), Prior(m), History(), RewardRow(m), d)
      ensures forall n :: 0 <= n < numModels && n != m ==> Member(n) == old(Member(n))
    {
      var w := Member(m);
      var x := Gather(History(), d.batch);
      var y := Gather(RewardRow(m), d.batch);
      var g := DataGradient(Plain, hyper, w, x, y, d.keep);
      var reg := RegularisedGradient(g, w, Prior(m), hyper.batchSize, RegCoeff(hyper.priorVar, t));
      DescendMember(m, reg);
    }

    /** `_update_model(m, t)`: one regularised gradient step per draw on member `m` alone;
        the other members are left as they were. */
    method UpdateModel(m: nat, t: nat, draws: seq<Draw>)
      requires Valid() && m < numModels && t < horizon && |draws| == numGradientSteps
      requires numGradientSteps > 0 ==> hyper.Sound()
      requires ValidDraws(Plain, draws, t, hiddenDim, hyper.batchSize)
      modifies w1, w2
      ensures Member(m) == SgdSteps(Plain, hyper, lr, t, old(Member(m)), Prior(m), History(), RewardRow(m), draws)
      ensures forall n :: 0 <= n < numModels && n != m ==> Member(n) == old(Member(n))
    {
      var i := 0;
      while i < |draws|
        invariant 0 <= i <= |draws|
        invariant SgdSteps(Plain, hyper, lr, t, Member(m), Prior(m), History(), RewardRow(m), draws[i..])
               == SgdSteps(Plain, hyper, lr, t, old(Member(m)), Prior(m), History(), RewardRow(m), draws)
        invariant forall n :: 0 <= n < numModels && n != m ==> Member(n) == old(Member(n))
      {
        GradientStep(m, t, draws[i]);
        assert draws[i..][1..] == draws[i + 1..];
        i := i + 1;
      }
    }

    /** Member `n`'s weights after `_update_model(n, t)` from `start` on the current
        history, its own rewards and its prior. */
    ghost function Trained(n: nat, t: nat, start: Weights, draws: seq<Draw>): Weights
      requires Valid() && n < numModels && t < horizon && WellShaped(start, hiddenDim, inputDim)
      requires draws == [] || hyper.Sound()
      requires ValidDraws(Plain, draws, t, hiddenDim, hyper.batchSize)
      reads this, w1Prior, w2Prior, actionHist, rewardHist
    {
      SgdSteps(Plain, hyper, lr, t, start, Prior(n), History(), RewardRow(n), draws)
    }

    /** One pass of the loop in `update_observation`: record member `m`'s perturbed
        reward `r` in slot `t`, then run its update. */
    method ObserveMember(m: nat, t: nat, r: real, draws: seq<Draw>)
      requires Valid() && m < numModels && t < horizon && |draws| == numGradientSteps
      requires numGradientSteps > 0 ==> hyper.Sound()
      requires ValidDraws(Plain, draws, t, hiddenDim, hyper.batchSize)
      modifies w1, w2, rewardHist
      ensures RewardRow(m) == old(RewardRow(m))[t := r]
      ensures forall n :: 0 <= n < numModels && n != m ==> RewardRow(n) == old(RewardRow(n))
      ensures Member(m) == SgdSteps(Plain, hyper, lr, t, old(Member(m)), Prior(m), History(), RewardRow(m), draws)
      ensures forall n :: 0 <= n < numModels && n != m ==> Member(n) == old(Member(n))
    {
      WriteEntry(rewardHist, m, t, r);
      UpdateModel(m, t, draws);
    }

    /** The loop of `update_observation` over the members: member `m` records
        `perturbed[m]` in slot `t` of its reward row and runs its update on `draws[m]`. */
    method ObserveAll(t: nat, perturbed: seq<real>, draws: seq<seq<Draw>>)
      requires Valid() && t < horizon && (numGradientSteps > 0 ==> hyper.Sound())
      requires |perturbed| == numModels && |draws| == numModels
      requires forall m :: 0 <= m < numModels ==>
                 |draws[m]| == numGradientSteps && ValidDraws(Plain, draws[m], t, hiddenDim, hyper.batchSize)
      modifies w1, w2, rewardHist
      ensures forall m :: 0 <= m < numModels ==> RewardRow(m) == old(RewardRow(m))[t := perturbed[m]]
      ensures forall m :: 0 <= m < numModels ==>
                Member(m) == SgdSteps(Plain, hyper, lr, t, old(Member(m)), Prior(m), History(), RewardRow(m),
                                      draws[m])
    {
      var m := 0;
      while m < numModels
        invariant 0 <= m <= numModels
        invariant forall n :: 0 <= n < m ==> RewardRow(n) == old(RewardRow(n))[t := perturbed[n]]
        invariant forall n :: m <= n < numModels ==> RewardRow(n) == old(RewardRow(n))
        invariant forall n :: 0 <= n < m ==> Member(n) == Trained(n, t, old(Member(n)), draws[n])
        invariant forall n :: m <= n < numModels ==> Member(n) == old(Member(n))
      {
        ObserveMember(m, t, perturbed[m], draws[m]);
        m := m + 1;
      }
    }

    /** `update_observation(t, action, reward)`: record the action's row in slot `t`;
        then for each member `m` in turn, record `reward + noise_std * noise[m]` in its
        reward row and run its update; then decay the learning rate once. `noise[m]` is
        member `m`'s standard-normal draw, `draws[m]` its minibatch draws. */
    method UpdateObservation(t: nat, action: nat, reward: real, noise: seq<real>, draws: seq<seq<Draw>>)
      requires Valid() && t < horizon && action < |actions|
      requires numGradientSteps > 0 ==> hyper.Sound()
      requires |noise| == numModels && |draws| == numModels
      requires forall m :: 0 <= m < numModels ==>
                 |draws[m]| == numGradientSteps && ValidDraws(Plain, draws[m], t, hiddenDim, hyper.batchSize)
      modifies w1, w2, actionHist, rewardHist, this`lr
      ensures History() == old(History())[t := actions[action]]
      ensures forall m :: 0 <= m < numModels ==>
                RewardRow(m) == old(RewardRow(m))[t := PerturbedRewards(reward, noiseStd, noise)[m]]
      ensures forall m :: 0 <= m < numModels ==>
                Member(m) == SgdSteps(Plain, hyper, old(lr), t, old(Member(m)), Prior(m), History(), RewardRow(m),
                                      draws[m])
      ensures lr == old(lr) * lrDecay
    {
      WriteRow(actionHist, t, actions[action]);
      ObserveAll(t, PerturbedRewards(reward, noiseStd, noise), draws);
      lr := lr * lrDecay;
    }

    /** `pick_action`, with the member index `m` from `rd.randint(M)` as a parameter: the
        first action of highest score under member `m`. */
    method PickAction(m: nat) returns (action: nat)
      requires Valid() && m < numModels && |actions| > 0
      ensures IsFirstMax(Scores(m), action)
    {
      action := ArgMax(Scores(m));
    }
  }
}
