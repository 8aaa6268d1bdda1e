/** The two-layer Leaky-ReLU network without bias terms that every agent uses:
    forward pass, backward pass, and their dropout variants. */
module Network {
  import opened Algebra

  /** The parameters of one network: `w1` is hidden x input, `w2` has one entry per
      hidden unit. Gradients have the same shape and use the same type. */
  datatype Weights = Weights(w1: Matrix, w2: Vector)

  /** `w1` is `hidden` x `input` and `w2` has `hidden` entries. */
  predicate WellShaped(w: Weights, hidden: nat, input: nat)
  {
    IsShape(w.w1, hidden, input) && |w.w2| == hidden
  }

  /** `g` has exactly the shape of `w`. */
  predicate ShapedLike(g: Weights, w: Weights)
  {
    SameShape(g.w1, w.w1) && |g.w2| == |w.w2|
  }

  predicate IsZero(g: Weights)
  {
    IsZeroMatrix(g.w1) && IsZeroVector(g.w2)
  }

  /** The network can evaluate the batch `x`: every row of `x` is as wide as every row of
      `w1`, and there is one readout weight per hidden unit. */
  predicate Accepts(w: Weights, x: Matrix)
  {
    RowsMatch(x, w.w1) && |w.w2| == |w.w1|
  }

  /** `np.maximum(c * a, a)`. */
  function LeakyRelu(c: real, a: real): real
  {
    if c * a > a then c * a else a
  }

  /** The Leaky-ReLU derivative used by the backward pass: 1 where the pre-activation is
      non-negative, `c` where it is negative. */
  function ReluSlope(c: real, a: real): real
  {
    if a >= 0.0 then 1.0 else c
  }

  /** For a slope in [0, 1] the nonlinearity passes non-negative inputs through and scales
      negative ones by `c`, which is exactly `ReluSlope(c, a) * a`. */
  lemma LeakyReluIsSlopeTimesInput(c: real, a: real)
    requires 0.0 <= c <= 1.0
    ensures a >= 0.0 ==> LeakyRelu(c, a) == a
    ensures a < 0.0 ==> LeakyRelu(c, a) == c * a
    ensures LeakyRelu(c, a) == ReluSlope(c, a) * a
  {
    assert c * a - a == (c - 1.0) * a;
  }

  /** What `_model_forward` returns besides the scores: the cache of intermediate values. */
  datatype Pass = Pass(affine: Matrix, relu: Matrix, out: Vector)

  /** What the dropout `_model_forward` returns: the cache also holds the keep mask and the
      masked activations. */
  datatype DropoutPass = DropoutPass(affine: Matrix, relu: Matrix, mask: seq<seq<bool>>,
                                     dropped: Matrix, out: Vector)

  /** The forward pass over a batch: affine map, Leaky-ReLU, linear readout. */
  function Forward(x: Matrix, w: Weights, c: real): (p: Pass)
    requires Accepts(w, x)
    ensures IsShape(p.affine, |x|, |w.w1|) && IsShape(p.relu, |x|, |w.w1|) && |p.out| == |x|
    ensures forall i, k :: 0 <= i < |x| && 0 <= k < |w.w1| ==>
              p.relu[i][k] == LeakyRelu(c, p.affine[i][k])
  {
    var affine := seq(|x|, i requires 0 <= i < |x| =>
                    seq(|w.w1|, k requires 0 <= k < |w.w1| => Dot(x[i], w.w1[k])));
    var relu := seq(|x|, i requires 0 <= i < |x| =>
                  seq(|w.w1|, k requires 0 <= k < |w.w1| => LeakyRelu(c, affine[i][k])));
    Pass(affine, relu, seq(|x|, i requires 0 <= i < |x| => Dot(relu[i], w.w2)))
  }

  /** The score of one action, summed hidden unit by hidden unit: an independent
      reference definition of what the batched forward pass computes per row. */
  function Score(a: Vector, w1: Matrix, w2: Vector, c: real): real
    requires |w2| == |w1| && forall k :: 0 <= k < |w1| ==> |w1[k]| == |a|
  {
    if |w1| == 0 then 0.0
    else LeakyRelu(c, Dot(a, w1[0])) * w2[0] + Score(a, w1[1..], w2[1..], c)
  }

  /** The batched forward pass scores every row on its own: row `i` of the output is the
      score of action `x[i]`, whatever the other rows of the batch are. */
  lemma ForwardScoresEachRow(x: Matrix, w: Weights, c: real, i: nat)
    requires Accepts(w, x) && i < |x|
    ensures Forward(x, w, c).out[i] == Score(x[i], w.w1, w.w2, c)
  {
    var p := Forward(x, w, c);
    ScoreIsDot(x[i], w.w1, w.w2, c, p.relu[i]);
  }

  lemma {:induction false} ScoreIsDot(a: Vector, w1: Matrix, w2: Vector, c: real, h: Vector)
    requires |w2| == |w1| && forall k :: 0 <= k < |w1| ==> |w1[k]| == |a|
    requires |h| == |w1| && forall k :: 0 <= k < |w1| ==> h[k] == LeakyRelu(c, Dot(a, w1[k]))
    ensures Score(a, w1, w2, c) == Dot(h, w2)
  {
    if |w1| > 0 {
      ScoreIsDot(a, w1[1..], w2[1..], c, h[1..]);
    }
  }

  /** `rd.rand(...) > p`: a unit is kept when its uniform draw exceeds the drop probability. */
  function KeepMask(u: Matrix, p: real): (m: seq<seq<bool>>)
    ensures |m| == |u| && forall i :: 0 <= i < |u| ==> |m[i]| == |u[i]|
  {
    seq(|u|, i requires 0 <= i < |u| => seq(|u[i]|, k requires 0 <= k < |u[i]| => u[i][k] > p))
  }

  /** Every uniform draw exceeds `p`. */
  ghost predicate AllAbove(u: Matrix, p: real)
  {
    forall i, k :: 0 <= i < |u| && 0 <= k < |u[i]| ==> u[i][k] > p
  }

  /** The mask keeps every unit exactly when every draw exceeds the drop probability. */
  lemma KeepMaskAllKept(u: Matrix, p: real)
    ensures AllKept(KeepMask(u, p)) <==> AllAbove(u, p)
  {
    var m := KeepMask(u, p);
    assert forall i, k :: 0 <= i < |u| && 0 <= k < |u[i]| ==> (m[i][k] <==> u[i][k] > p);
  }

  /** A boolean mask entry as the 0/1 factor NumPy multiplies by. */
  function Keep(b: bool): real
  {
    if b then 1.0 else 0.0
  }

  predicate MaskShape(mask: seq<seq<bool>>, rows: nat, cols: nat)
  {
    |mask| == rows && forall i :: 0 <= i < rows ==> |mask[i]| == cols
  }

  predicate AllKept(mask: seq<seq<bool>>)
  {
    forall i, k :: 0 <= i < |mask| && 0 <= k < |mask[i]| ==> mask[i][k]
  }

  /** The dropout forward pass: the plain affine map and Leaky-ReLU, then every hidden
      activation multiplied by its keep flag before the readout. Dropout stays on for
      every call. */
  function DropoutForward(x: Matrix, w: Weights, c: real, mask: seq<seq<bool>>): (p: DropoutPass)
    requires Accepts(w, x) && MaskShape(mask, |x|, |w.w1|)
    ensures IsShape(p.affine, |x|, |w.w1|) && IsShape(p.relu, |x|, |w.w1|) && |p.out| == |x|
    ensures p.mask == mask
  {
    var plain := Forward(x, w, c);
    var dropped := seq(|x|, i requires 0 <= i < |x| =>
                     seq(|w.w1|, k requires 0 <= k < |w.w1| => plain.relu[i][k] * Keep(mask[i][k])));
    DropoutPass(plain.affine, plain.relu, mask, dropped,
                seq(|x|, i requires 0 <= i < |x| => Dot(dropped[i], w.w2)))
  }

  /** With every unit kept, the dropout forward pass gives exactly the plain scores. */
  lemma AllKeptForwardIsPlain(x: Matrix, w: Weights, c: real, mask: seq<seq<bool>>)
    requires Accepts(w, x) && MaskShape(mask, |x|, |w.w1|) && AllKept(mask)
    ensures DropoutForward(x, w, c, mask).out == Forward(x, w, c).out
    ensures DropoutForward(x, w, c, mask).relu == Forward(x, w, c).relu
  {
    var d := DropoutForward(x, w, c, mask);
    var p := Forward(x, w, c);
    forall i | 0 <= i < |x|
      ensures d.out[i] == p.out[i]
    {
      assert d.dropped[i] == p.relu[i];
    }
  }

  /** The scaled residual `dout = -(2 / noise_var) * (y - out)`. */
  function OutputError(out: Vector, y: Vector, noiseVar: real): (dout: Vector)
    requires |out| == |y| && noiseVar != 0.0
    ensures |dout| == |out|
  {
    seq(|out|, i requires 0 <= i < |out| => -(2.0 / noiseVar) * (y[i] - out[i]))
  }

  /** Where every prediction equals its target, the residual is zero. */
  lemma ExactFitNoError(out: Vector, y: Vector, noiseVar: real)
    requires |out| == |y| && noiseVar != 0.0 && out == y
    ensures IsZeroVector(OutputError(out, y, noiseVar))
  {
  }

  /** The gradient at the pre-activations: `slope * (dout * w2)`, with `(dout * w2)`
      first multiplied by the keep flags in the dropout variant. */
  function AffineError(dout: Vector, affine: Matrix, w2: Vector, c: real,
                       mask: seq<seq<bool>>, dropout: bool): (d: Matrix)
    requires IsShape(affine, |dout|, |w2|)
    requires dropout ==> MaskShape(mask, |dout|, |w2|)
    ensures IsShape(d, |dout|, |w2|)
  {
    seq(|dout|, i requires 0 <= i < |dout| =>
      seq(|w2|, k requires 0 <= k < |w2| =>
        ReluSlope(c, affine[i][k]) *
          (if dropout then (dout[i] * w2[k]) * Keep(mask[i][k]) else dout[i] * w2[k])))
  }

  /** The summed (not averaged) gradients: `dW2 = sum_i dout[i] * relu[i]` and
      `dW1 = daffine^T . x`. */
  function WeightGradients(x: Matrix, w: Weights, dout: Vector, relu: Matrix, daffine: Matrix): (g: Weights)
    requires Accepts(w, x) && |dout| == |x|
    requires IsShape(relu, |x|, |w.w1|) && IsShape(daffine, |x|, |w.w1|)
    ensures ShapedLike(g, w)
  {
    Weights(
      seq(|w.w1|, k requires 0 <= k < |w.w1| =>
        seq(|w.w1[k]|, j requires 0 <= j < |w.w1[k]| => Dot(Column(daffine, k), Column(x, j)))),
      seq(|w.w1|, k requires 0 <= k < |w.w1| => Dot(dout, Column(relu, k))))
  }

  /** Both gradients vanish when the residual and the pre-activation gradient do. */
  lemma WeightGradientsVanish(x: Matrix, w: Weights, dout: Vector, relu: Matrix, daffine: Matrix)
    requires Accepts(w, x) && |dout| == |x|
    requires IsShape(relu, |x|, |w.w1|) && IsShape(daffine, |x|, |w.w1|)
    requires IsZeroVector(dout) && IsZeroMatrix(daffine)
    ensures IsZero(WeightGradients(x, w, dout, relu, daffine))
  {
    var g := WeightGradients(x, w, dout, relu, daffine);
    forall k | 0 <= k < |w.w1|
      ensures g.w2[k] == 0.0
    {
      DotZeroLeft(dout, Column(relu, k));
    }
    forall k, j | 0 <= k < |w.w1| && 0 <= j < |w.w1[k]|
      ensures g.w1[k][j] == 0.0
    {
      DotZeroLeft(Column(daffine, k), Column(x, j));
    }
  }

  /** The backward pass of the plain network: gradients of the summed squared error
      `sum_i (y[i] - out[i])^2 / noise_var` with respect to `w1` and `w2`. */
  function Backward(x: Matrix, p: Pass, w: Weights, y: Vector, noiseVar: real, c: real): (g: Weights)
    requires Accepts(w, x) && noiseVar != 0.0
    requires IsShape(p.affine, |x|, |w.w1|) && IsShape(p.relu, |x|, |w.w1|)
    requires |p.out| == |x| && |y| == |x|
    ensures ShapedLike(g, w)
  {
    var dout := OutputError(p.out, y, noiseVar);
    WeightGradients(x, w, dout, p.relu, AffineError(dout, p.affine, w.w2, c, [], false))
  }

  /** The backward pass of the dropout network: the gradient flows back through the keep
      mask, but `dW2` is summed against the unmasked activations `relu`. */
  function DropoutBackward(x: Matrix, p: DropoutPass, w: Weights, y: Vector, noiseVar: real, c: real): (g: Weights)
    requires Accepts(w, x) && noiseVar != 0.0
    requires IsShape(p.affine, |x|, |w.w1|) && IsShape(p.relu, |x|, |w.w1|)
    requires MaskShape(p.mask, |x|, |w.w1|)
    requires |p.out| == |x| && |y| == |x|
    ensures ShapedLike(g, w)
  {
    var dout := OutputError(p.out, y, noiseVar);
    WeightGradients(x, w, dout, p.relu, AffineError(dout, p.affine, w.w2, c, p.mask, true))
  }

  /** When every prediction equals its target, the backward pass returns zero gradients. */
  lemma BackwardAtExactFit(x: Matrix, p: Pass, w: Weights, y: Vector, noiseVar: real, c: real)
    requires Accepts(w, x) && noiseVar != 0.0
    requires IsShape(p.affine, |x|, |w.w1|) && IsShape(p.relu, |x|, |w.w1|)
    requires |p.out| == |x| && y == p.out
    ensures IsZero(Backward(x, p, w, y, noiseVar, c))
  {
    var dout := OutputError(p.out, y, noiseVar);
    ExactFitNoError(p.out, y, noiseVar);
    WeightGradientsVanish(x, w, dout, p.relu, AffineError(dout, p.affine, w.w2, c, [], false));
  }

  /** The same for the dropout backward pass, whatever the mask. */
  lemma DropoutBackwardAtExactFit(x: Matrix, p: DropoutPass, w: Weights, y: Vector, noiseVar: real, c: real)
    requires Accepts(w, x) && noiseVar != 0.0
    requires IsShape(p.affine, |x|, |w.w1|) && IsShape(p.relu, |x|, |w.w1|)
    requires MaskShape(p.mask, |x|, |w.w1|)
    requires |p.out| == |x| && y == p.out
    ensures IsZero(DropoutBackward(x, p, w, y, noiseVar, c))
  {
    var dout := OutputError(p.out, y, noiseVar);
    ExactFitNoError(p.out, y, noiseVar);
    WeightGradientsVanish(x, w, dout, p.relu, AffineError(dout, p.affine, w.w2, c, p.mask, true));
  }

  /** The dropout backward pass agrees with the plain one on the same cache and scores:
      `dW2` for every mask (it ignores the mask), and `dW1` too when every unit is kept. */
  lemma DropoutBackwardAgreesWithPlain(x: Matrix, p: DropoutPass, w: Weights, y: Vector, noiseVar: real, c: real)
    requires Accepts(w, x) && noiseVar != 0.0
    requires IsShape(p.affine, |x|, |w.w1|) && IsShape(p.relu, |x|, |w.w1|)
    requires MaskShape(p.mask, |x|, |w.w1|)
    requires |p.out| == |x| && |y| == |x|
    ensures DropoutBackward(x, p, w, y, noiseVar, c).w2
         == Backward(x, Pass(p.affine, p.relu, p.out), w, y, noiseVar, c).w2
    ensures AllKept(p.mask) ==>
              DropoutBackward(x, p, w, y, noiseVar, c) == Backward(x, Pass(p.affine, p.relu, p.out), w, y, noiseVar, c)
  {
    if AllKept(p.mask) {
      var dout := OutputError(p.out, y, noiseVar);
      var masked := AffineError(dout, p.affine, w.w2, c, p.mask, true);
      var plain := AffineError(dout, p.affine, w.w2, c, [], false);
      assert masked == plain by {
        forall i | 0 <= i < |x|
          ensures masked[i] == plain[i]
        {
          forall k | 0 <= k < |w.w1|
            ensures masked[i][k] == plain[i][k]
          {
            assert p.mask[i][k];
          }
        }
      }
    }
  }
}
