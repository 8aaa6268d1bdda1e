/** One call of `_update_model`, as a function of the weights before it: minibatch
    gathering, the data gradient, the L2 pull toward a prior and the descent step. */
module Sgd {
  import opened Algebra
  import opened Network

  /** The hyperparameters the update reads. */
  datatype Hyper = Hyper(priorVar: real, noiseVar: real, leaky: real, batchSize: nat)
  {
    /** No division in a gradient step divides by zero: Python raises on the two
        variances, and NumPy turns the weights into NaN on a zero batch size. */
    predicate Sound()
    {
      priorVar != 0.0 && noiseVar != 0.0 && batchSize > 0
    }
  }

  /** Which forward/backward pair the update runs. */
  datatype Net = Plain | Dropout(dropProb: real)

  /** The random draws of one gradient step: the minibatch indices and, for the dropout
      network, one uniform draw per (row, hidden unit) of the minibatch. */
  datatype Draw = Draw(batch: seq<nat>, keep: Matrix)

  /** A draw as `rd.randint(t + 1, size=batch_size)` (and `rd.rand`) can produce it. */
  predicate ValidDraw(net: Net, d: Draw, t: nat, hidden: nat, batchSize: nat)
  {
    |d.batch| == batchSize
    && (forall b :: 0 <= b < |d.batch| ==> d.batch[b] <= t)
    && (net.Dropout? ==> IsShape(d.keep, batchSize, hidden))
  }

  predicate ValidDraws(net: Net, draws: seq<Draw>, t: nat, hidden: nat, batchSize: nat)
  {
    forall s :: 0 <= s < |draws| ==> ValidDraw(net, draws[s], t, hidden, batchSize)
  }

  /** `2 / (prior_var * (t + 1))`: the regularisation strength after `t + 1` observations. */
  function RegCoeff(priorVar: real, t: nat): real
    requires priorVar != 0.0
  {
    2.0 / (priorVar * (t as real + 1.0))
  }

  /** Weights of the same shape as `w`, all zero: the implicit prior of the single-network
      agents. */
  function ZeroLike(w: Weights): (z: Weights)
    ensures ShapedLike(z, w) && IsZero(z)
  {
    Weights(seq(|w.w1|, k requires 0 <= k < |w.w1| => seq(|w.w1[k]|, j => 0.0)),
            seq(|w.w2|, k => 0.0))
  }

  /** The zero weights depend on the shape only. */
  lemma ZeroLikeOfShape(a: Weights, b: Weights)
    requires ShapedLike(a, b)
    ensures ZeroLike(a) == ZeroLike(b)
  {
    var za, zb := ZeroLike(a), ZeroLike(b);
    assert forall k :: 0 <= k < |za.w1| ==> za.w1[k] == zb.w1[k];
  }

  /** The scores the data gradient is computed from. */
  function Predict(net: Net, hp: Hyper, w: Weights, x: Matrix, keep: Matrix): (out: Vector)
    requires Accepts(w, x) && (net.Dropout? ==> IsShape(keep, |x|, |w.w1|))
    ensures |out| == |x|
  {
    match net
    case Plain => Forward(x, w, hp.leaky).out
    case Dropout(p) => DropoutForward(x, w, hp.leaky, KeepMask(keep, p)).out
  }

  /** The summed data gradient of a minibatch: forward pass, then backward pass. */
  function DataGradient(net: Net, hp: Hyper, w: Weights, x: Matrix, y: Vector, keep: Matrix): (g: Weights)
    requires hp.noiseVar != 0.0 && Accepts(w, x) && |y| == |x|
    requires net.Dropout? ==> IsShape(keep, |x|, |w.w1|)
    ensures ShapedLike(g, w)
  {
    match net
    case Plain =>
      Backward(x, Forward(x, w, hp.leaky), w, y, hp.noiseVar, hp.leaky)
    case Dropout(p) =>
      DropoutBackward(x, DropoutForward(x, w, hp.leaky, KeepMask(keep, p)), w, y, hp.noiseVar, hp.leaky)
  }

  /** When the network already predicts every target of the minibatch, the data gradient
      is zero. */
  lemma DataGradientAtExactFit(net: Net, hp: Hyper, w: Weights, x: Matrix, y: Vector, keep: Matrix)
    requires hp.noiseVar != 0.0 && Accepts(w, x) && |y| == |x|
    requires net.Dropout? ==> IsShape(keep, |x|, |w.w1|)
    requires Predict(net, hp, w, x, keep) == y
    ensures IsZero(DataGradient(net, hp, w, x, y, keep))
  {
    match net
    case Plain =>
      BackwardAtExactFit(x, Forward(x, w, hp.leaky), w, y, hp.noiseVar, hp.leaky);
    case Dropout(p) =>
      DropoutBackwardAtExactFit(x, DropoutForward(x, w, hp.leaky, KeepMask(keep, p)), w, y, hp.noiseVar, hp.leaky);
  }

  /** `dW /= batch_size; dW += coeff * (W - W_prior)`, for both layers. */
  function RegularisedGradient(g: Weights, w: Weights, prior: Weights, batchSize: nat, coeff: real): (r: Weights)
    requires ShapedLike(g, w) && ShapedLike(prior, w) && batchSize > 0
    ensures ShapedLike(r, w)
  {
    Weights(
      seq(|w.w1|, k requires 0 <= k < |w.w1| =>
        seq(|w.w1[k]|, j requires 0 <= j < |w.w1[k]| =>
          g.w1[k][j] / batchSize as real + coeff * (w.w1[k][j] - prior.w1[k][j]))),
      seq(|w.w2|, k requires 0 <= k < |w.w2| =>
        g.w2[k] / batchSize as real + coeff * (w.w2[k] - prior.w2[k])))
  }

  /** `W -= lr * dW`, for both layers. */
  function Descend(w: Weights, d: Weights, lr: real): (r: Weights)
    requires ShapedLike(d, w)
    ensures ShapedLike(r, w)
  {
    Weights(SubScaledRows(w.w1, lr, d.w1), SubScaled(w.w2, lr, d.w2))
  }

  /** One iteration of the loop in `_update_model`: gather the minibatch from the history,
      compute the data gradient, average it, add the pull toward `prior`, descend. */
  function SgdStep(net: Net, hp: Hyper, lr: real, t: nat, w: Weights, prior: Weights,
                   history: Matrix, rewards: Vector, d: Draw): (r: Weights)
    requires hp.Sound() && Accepts(w, history) && ShapedLike(prior, w)
    requires |rewards| == |history| && t < |history|
    requires ValidDraw(net, d, t, |w.w1|, hp.batchSize)
    ensures ShapedLike(r, w) && Accepts(r, history)
  {
    var x := Gather(history, d.batch);
    var y := Gather(rewards, d.batch);
    var g := DataGradient(net, hp, w, x, y, d.keep);
    Descend(w, RegularisedGradient(g, w, prior, hp.batchSize, RegCoeff(hp.priorVar, t)), lr)
  }

  /** The whole loop of `_update_model`: one step per draw, at a fixed learning rate. */
  function SgdSteps(net: Net, hp: Hyper, lr: real, t: nat, w: Weights, prior: Weights,
                    history: Matrix, rewards: Vector, draws: seq<Draw>): (r: Weights)
    requires draws == [] || hp.Sound()
    requires Accepts(w, history) && ShapedLike(prior, w)
    requires |rewards| == |history| && t < |history|
    requires ValidDraws(net, draws, t, |w.w1|, hp.batchSize)
    ensures ShapedLike(r, w) && Accepts(r, history)
    decreases |draws|
  {
    if draws == [] then w
    else
      SgdSteps(net, hp, lr, t, SgdStep(net, hp, lr, t, w, prior, history, rewards, draws[0]),
               prior, history, rewards, draws[1..])
  }

  /** The update reads only the history slots `0..t`: two histories that agree there give
      the same weights, whatever the later slots hold. */
  lemma {:induction false} SgdStepsReadsOnlyObserved(net: Net, hp: Hyper, lr: real, t: nat, w: Weights, prior: Weights,
                                    history1: Matrix, rewards1: Vector, history2: Matrix, rewards2: Vector,
                                    draws: seq<Draw>)
    requires draws == [] || hp.Sound()
    requires Accepts(w, history1) && Accepts(w, history2) && ShapedLike(prior, w)
    requires |rewards1| == |history1| && t < |history1|
    requires |rewards2| == |history2| && t < |history2|
    requires history1[..t + 1] == history2[..t + 1] && rewards1[..t + 1] == rewards2[..t + 1]
    requires ValidDraws(net, draws, t, |w.w1|, hp.batchSize)
    ensures SgdSteps(net, hp, lr, t, w, prior, history1, rewards1, draws)
         == SgdSteps(net, hp, lr, t, w, prior, history2, rewards2, draws)
    decreases |draws|
  {
    if draws != [] {
      var d := draws[0];
      GatherPrefix(history1, history2, d.batch, t + 1);
      GatherPrefix(rewards1, rewards2, d.batch, t + 1);
      var next := SgdStep(net, hp, lr, t, w, prior, history1, rewards1, d);
      assert next == SgdStep(net, hp, lr, t, w, prior, history2, rewards2, d);
      assert Accepts(next, history2);
      SgdStepsReadsOnlyObserved(net, hp, lr, t, next, prior, history1, rewards1, history2, rewards2, draws[1..]);
    }
  }

  /** Every entry of `r` differs from `prior` by `factor` times the difference of `w`. */
  predicate ScaledDeviation(r: Weights, w: Weights, prior: Weights, factor: real)
    requires ShapedLike(r, w) && ShapedLike(prior, w)
  {
    (forall k, j :: 0 <= k < |w.w1| && 0 <= j < |w.w1[k]| ==>
       r.w1[k][j] - prior.w1[k][j] == factor * (w.w1[k][j] - prior.w1[k][j]))
    && (forall k :: 0 <= k < |w.w2| ==> r.w2[k] - prior.w2[k] == factor * (w.w2[k] - prior.w2[k]))
  }

  /** `1 - lr * 2 / (prior_var * (t + 1))`: the factor by which one regularised step with
      a zero data gradient scales the deviation from the prior. */
  function PullFactor(lr: real, priorVar: real, t: nat): real
    requires priorVar != 0.0
  {
    1.0 - lr * RegCoeff(priorVar, t)
  }

  function Abs(a: real): real
  {
    if a < 0.0 then -a else a
  }

  /** Every entry of `r` is at least as close to `prior` as that of `w`, and strictly
      closer wherever `w` is not already at the prior. */
  predicate CloserTo(r: Weights, w: Weights, prior: Weights)
    requires ShapedLike(r, w) && ShapedLike(prior, w)
  {
    (forall k, j :: 0 <= k < |w.w1| && 0 <= j < |w.w1[k]| ==>
       Abs(r.w1[k][j] - prior.w1[k][j]) <= Abs(w.w1[k][j] - prior.w1[k][j])
       && (w.w1[k][j] != prior.w1[k][j] ==>
             Abs(r.w1[k][j] - prior.w1[k][j]) < Abs(w.w1[k][j] - prior.w1[k][j])))
    && (forall k :: 0 <= k < |w.w2| ==>
          Abs(r.w2[k] - prior.w2[k]) <= Abs(w.w2[k] - prior.w2[k])
          && (w.w2[k] != prior.w2[k] ==> Abs(r.w2[k] - prior.w2[k]) < Abs(w.w2[k] - prior.w2[k])))
  }

  /** Scaling a deviation by a factor of magnitude below one shrinks it. */
  lemma ShrinkOne(d: real, factor: real)
    requires -1.0 < factor < 1.0
    ensures Abs(factor * d) <= Abs(d)
    ensures d != 0.0 ==> Abs(factor * d) < Abs(d)
  {
    if d > 0.0 {
      if factor >= 0.0 { assert factor * d < 1.0 * d; } else { assert -factor * d < 1.0 * d; }
    } else if d < 0.0 {
      if factor >= 0.0 { assert factor * -d < 1.0 * -d; } else { assert -factor * -d < 1.0 * -d; }
    }
  }

  lemma ScaledDeviationShrinks(r: Weights, w: Weights, prior: Weights, factor: real)
    requires ShapedLike(r, w) && ShapedLike(prior, w)
    requires ScaledDeviation(r, w, prior, factor) && -1.0 < factor < 1.0
    ensures CloserTo(r, w, prior)
  {
    forall k, j | 0 <= k < |w.w1| && 0 <= j < |w.w1[k]|
      ensures Abs(r.w1[k][j] - prior.w1[k][j]) <= Abs(w.w1[k][j] - prior.w1[k][j])
      ensures w.w1[k][j] != prior.w1[k][j] ==>
                Abs(r.w1[k][j] - prior.w1[k][j]) < Abs(w.w1[k][j] - prior.w1[k][j])
    {
      ShrinkOne(w.w1[k][j] - prior.w1[k][j], factor);
    }
    forall k | 0 <= k < |w.w2|
      ensures Abs(r.w2[k] - prior.w2[k]) <= Abs(w.w2[k] - prior.w2[k])
      ensures w.w2[k] != prior.w2[k] ==> Abs(r.w2[k] - prior.w2[k]) < Abs(w.w2[k] - prior.w2[k])
    {
      ShrinkOne(w.w2[k] - prior.w2[k], factor);
    }
  }

  /** With a zero data gradient, one regularised descent step scales the deviation from
      the prior by `1 - lr * coeff`. */
  lemma RegularisedDescentScales(g: Weights, w: Weights, prior: Weights, batchSize: nat, coeff: real, lr: real,
                                 factor: real)
    requires ShapedLike(g, w) && ShapedLike(prior, w) && batchSize > 0 && IsZero(g)
    requires factor == 1.0 - lr * coeff
    ensures ScaledDeviation(Descend(w, RegularisedGradient(g, w, prior, batchSize, coeff), lr),
                            w, prior, factor)
  {
    var r := Descend(w, RegularisedGradient(g, w, prior, batchSize, coeff), lr);
    forall k, j | 0 <= k < |w.w1| && 0 <= j < |w.w1[k]|
      ensures r.w1[k][j] - prior.w1[k][j] == factor * (w.w1[k][j] - prior.w1[k][j])
    {
      assert g.w1[k][j] == 0.0;
      var a, p := w.w1[k][j], prior.w1[k][j];
      assert r.w1[k][j] == a - lr * (0.0 / batchSize as real + coeff * (a - p));
    }
    forall k | 0 <= k < |w.w2|
      ensures r.w2[k] - prior.w2[k] == factor * (w.w2[k] - prior.w2[k])
    {
      var a, p := w.w2[k], prior.w2[k];
      assert r.w2[k] == a - lr * (0.0 / batchSize as real + coeff * (a - p));
    }
  }

  /** With a zero data gradient at the minibatch, one step `r` scales every deviation
      from the prior by `1 - lr * 2 / (prior_var * (t + 1))`. */
  lemma SgdStepAtExactFit(net: Net, hp: Hyper, lr: real, t: nat, w: Weights, prior: Weights,
                          history: Matrix, rewards: Vector, d: Draw) returns (r: Weights)
    requires hp.Sound() && Accepts(w, history) && ShapedLike(prior, w)
    requires |rewards| == |history| && t < |history|
    requires ValidDraw(net, d, t, |w.w1|, hp.batchSize)
    requires Predict(net, hp, w, Gather(history, d.batch), d.keep) == Gather(rewards, d.batch)
    ensures r == SgdStep(net, hp, lr, t, w, prior, history, rewards, d)
    ensures ShapedLike(r, w) && ScaledDeviation(r, w, prior, PullFactor(lr, hp.priorVar, t))
  {
    var x := Gather(history, d.batch);
    var y := Gather(rewards, d.batch);
    var g := DataGradient(net, hp, w, x, y, d.keep);
    var coeff := RegCoeff(hp.priorVar, t);
    r := Descend(w, RegularisedGradient(g, w, prior, hp.batchSize, coeff), lr);
    assert IsZero(g) by {
      DataGradientAtExactFit(net, hp, w, x, y, d.keep);
    }
    var factor := PullFactor(lr, hp.priorVar, t);
    assert ScaledDeviation(r, w, prior, factor) by {
      RegularisedDescentScales(g, w, prior, hp.batchSize, coeff, lr, factor);
    }
  }

  /** The regularisation pull: when the network already fits every target of the
      minibatch, one step moves each weight toward the prior by the factor
      `1 - lr * 2 / (prior_var * (t + 1))`, hence strictly closer (where it is not there
      already) when `0 < lr * 2 / (prior_var * (t + 1)) < 2`. */
  lemma SgdStepPullsTowardPrior(net: Net, hp: Hyper, lr: real, t: nat, w: Weights, prior: Weights,
                                history: Matrix, rewards: Vector, d: Draw)
    requires hp.Sound() && Accepts(w, history) && ShapedLike(prior, w)
    requires |rewards| == |history| && t < |history|
    requires ValidDraw(net, d, t, |w.w1|, hp.batchSize)
    requires Predict(net, hp, w, Gather(history, d.batch), d.keep) == Gather(rewards, d.batch)
    requires 0.0 < lr * RegCoeff(hp.priorVar, t) < 2.0
    ensures CloserTo(SgdStep(net, hp, lr, t, w, prior, history, rewards, d), w, prior)
  {
    var step := lr * RegCoeff(hp.priorVar, t);
    assert PullFactor(lr, hp.priorVar, t) == 1.0 - step;
    assert -1.0 < PullFactor(lr, hp.priorVar, t) < 1.0;
    var r := SgdStepAtExactFit(net, hp, lr, t, w, prior, history, rewards, d);
    ScaledDeviationShrinks(r, w, prior, PullFactor(lr, hp.priorVar, t));
  }
}
