# Neural-network bandit agents

This project models the four agents of `src/ensemble_nn/agent_nn.py`. Each is a
bandit agent built on a hand-written two-layer Leaky-ReLU network with no bias terms.
The agents are:

- fixed epsilon-greedy (`TwoLayerNNEpsilonGreedy`);
- annealing epsilon-greedy (`TwoLayerNNEpsilonGreedyAnnealing`);
- dropout (`TwoLayerNNDropout`);
- ensemble sampling (`TwoLayerNNEnsembleSampling`).

Every quantity is a Dafny `real`, so the algebra is exact. Every random draw is a
parameter. Where the source bounds a draw, its precondition states that bound and
nothing more:

- the uniform `u` of the exploration test, in `[0, 1)`;
- the random action, below the number of actions;
- the ensemble member, below `M`;
- the minibatch indices, each at most `t`.

The other draws are unconstrained apart from their shapes: the dropout agent's
uniform draws, from which the mask is `u > p`, and the standard-normal reward noise
and initial weights.

With the draws as parameters, each operation is a deterministic state transition.

Modules:

- `Algebra` (`algebra.dfy`): vectors and matrices as sequences; the inner product;
  gathering rows by an index vector (NumPy fancy indexing); `x - lr * d`.
- `Network` (`network.dfy`): the pure parts.
  - `_model_forward` is `Forward`, or `DropoutForward` with the mask kept on at every
    call.
  - `_model_backward` is `Backward` or `DropoutBackward`.
  - An independent per-action reference score `Score` is given for the forward pass.
- `Sgd` (`sgd.dfy`): one pass of the `_update_model` loop as the function `SgdStep`:
  1. gather the minibatch;
  2. take the summed data gradient;
  3. divide it by the batch size;
  4. add `2/(prior_var*(t+1)) * (W - prior)`;
  5. descend.

  The whole loop is the function `SgdSteps`. The single-network agents use the zero
  prior; the ensemble uses each member's prior snapshot.
- `Selection` (`selection.dfy`): `np.argmax`, which returns the first maximal index, and
  the annealed exploration rate.
- `Buffers` (`buffers.dfy`): the NumPy arrays are Dafny `array`, `array2` and
  `array3`, updated in place. This module holds their sequence views and the in-place
  updates, each proved against its sequence function.
- `SingleModel` (`single_agent.dfy`): one class for the three single-network agents.
  - They share weights, history buffers, `_update_model` and `update_observation`.
  - They differ in the network they train and act with, and in `pick_action`. A
    `Policy` value fixed at construction selects the variant.
  - The dropout agent inherits `_update_model` from the epsilon-greedy class, but its
    `_model_forward` draws a new mask at every gradient step. Each `Draw` therefore
    carries its own uniform draws.
- `Ensemble` (`ensemble_agent.dfy`): the ensemble agent.
  - Slice `m` of the `array3` / `array2` weight buffers is member `m`.
  - Each member has a prior snapshot (arrays no method modifies) and its own reward
    row.

The methods are stated against the specification functions:

- `UpdateModel` computes `SgdSteps`.
- `UpdateObservation` writes slot `t` and leaves every other slot as it was. It then
  computes `SgdSteps` at the learning rate it had on entry, and leaves
  `lr == old(lr) * lr_decay`.
- `PickAction` returns the first arg-max of the scores, or the random action when it
  explores. A dropout agent whose draws all exceed `p` keeps every unit, and so
  picks the first arg-max of the plain network's scores.

The properties proved about those functions are:

- shapes and zero gradients at an exact fit;
- dropout with an all-keep mask equals the plain network;
- `dW2` of the dropout network ignores the mask;
- the update reads only history slots `0..t`;
- when the network fits every target of the minibatch, so that the data gradient is
  zero, one step scales each weight's distance to the prior by
  `1 - lr*2/(prior_var*(t+1))`. When `lr*2/(prior_var*(t+1))` lies in `(0, 2)`, no
  weight then moves away from the prior, and every weight not already at the prior
  moves strictly closer;
- the annealed rate lies in `[0, 1]` and does not increase over time;
- each ensemble member is isolated from the others.

## Model

| member | source | states |
|---|---|---|
| `Network.LeakyReluIsSlopeTimesInput` | src/ensemble_nn/agent_nn.py:84-105 | For `0 <= c <= 1`, `max(c*a, a)` is `a` for `a >= 0` and `c*a` below zero. That is exactly the backward pass's slope mask `(a >= 0) + c*(a < 0)` times `a`. |
| `Network.Forward` | src/ensemble_nn/agent_nn.py:83-85 | The output holds one score per input row. The pre-activations and activations are rows x hidden. Each activation is `max(c*a, a)` of its pre-activation. |
| `Network.ForwardScoresEachRow` | src/ensemble_nn/agent_nn.py:83-85 | Row `i` of the batched forward pass is the reference score of action `x[i]` on its own: sum over hidden units `k` of `max(c*a_k, a_k) * W2[k]`, with `a_k = x[i] . W1[k]`. |
| `Network.KeepMask` | src/ensemble_nn/agent_nn.py:234 | The mask has the shape of the draws. |
| `Network.KeepMaskAllKept` | src/ensemble_nn/agent_nn.py:234-235 | The mask keeps every unit if and only if every uniform draw exceeds the drop probability `p`. |
| `Network.DropoutForward` | src/ensemble_nn/agent_nn.py:232-236 | Scores, pre-activations and activations have the plain pass's shapes. The cache carries the mask it was given. |
| `Network.AllKeptForwardIsPlain` | src/ensemble_nn/agent_nn.py:232-236 | With every unit kept, the dropout forward pass gives exactly the plain scores and activations. |
| `Network.OutputError` | src/ensemble_nn/agent_nn.py:102 | One residual per prediction. Its zero case is stated by `ExactFitNoError`. |
| `Network.ExactFitNoError` | src/ensemble_nn/agent_nn.py:102 | Where every prediction equals its target, every residual is zero. |
| `Network.AffineError` | src/ensemble_nn/agent_nn.py:104-106 | The gradient at the pre-activations has the rows x hidden shape. |
| `Network.WeightGradients` | src/ensemble_nn/agent_nn.py:103-107 | `dW1` has `W1`'s shape and `dW2` has `W2`'s shape. |
| `Network.WeightGradientsVanish` | src/ensemble_nn/agent_nn.py:103-107 | With a zero residual and a zero pre-activation gradient, both weight gradients are zero. |
| `Network.Backward` | src/ensemble_nn/agent_nn.py:101-108 | `dW1` has `W1`'s shape and `dW2` has `W2`'s shape. |
| `Network.DropoutBackward` | src/ensemble_nn/agent_nn.py:252-260 | `dW1` has `W1`'s shape and `dW2` has `W2`'s shape, whatever the mask. |
| `Network.BackwardAtExactFit` | src/ensemble_nn/agent_nn.py:101-108 | When every prediction equals its target, both gradients are zero. |
| `Network.DropoutBackwardAtExactFit` | src/ensemble_nn/agent_nn.py:252-260 | The same for the dropout network, for every mask. |
| `Network.DropoutBackwardAgreesWithPlain` | src/ensemble_nn/agent_nn.py:254-258 | On the same cache, the dropout `dW2` equals the plain one for every mask, because it is summed against the unmasked activations. With every unit kept, `dW1` is equal too. |
| `Sgd.ZeroLike` | src/ensemble_nn/agent_nn.py:122-123 | The implicit prior of the single-network agents: all zero, with the shape of the weights. |
| `Sgd.ZeroLikeOfShape` | src/ensemble_nn/agent_nn.py:122-123 | The zero prior depends only on the shape of the weights. It is therefore the same before and after every step. |
| `Sgd.Predict` | src/ensemble_nn/agent_nn.py:118 | One score per minibatch row, from the plain or the dropout forward pass. |
| `Sgd.DataGradient` | src/ensemble_nn/agent_nn.py:118-119 | The summed minibatch gradient has the shape of the weights. |
| `Sgd.DataGradientAtExactFit` | src/ensemble_nn/agent_nn.py:118-119 | If the network predicts every minibatch target, the data gradient is zero, for either network. |
| `Sgd.RegularisedGradient` | src/ensemble_nn/agent_nn.py:120-123 | `dW/batch_size + coeff*(W - prior)` has the shape of the weights. |
| `Sgd.Descend` | src/ensemble_nn/agent_nn.py:125-126 | `W - lr*dW` has the shape of the weights. |
| `Sgd.SgdStep` | src/ensemble_nn/agent_nn.py:114-126 | One step keeps the shape of the weights, so the network still accepts the history. |
| `Sgd.SgdSteps` | src/ensemble_nn/agent_nn.py:112-126 | The same after any number of steps. |
| `Sgd.SgdStepsReadsOnlyObserved` | src/ensemble_nn/agent_nn.py:114-116 | Every minibatch index is at most `t`. So two histories that agree on slots `0..t` give the same weights after the update, whatever the later slots hold. |
| `Sgd.RegularisedDescentScales` | src/ensemble_nn/agent_nn.py:120-126 | With a zero data gradient, `W' - P = (1 - lr*coeff)*(W - P)` entry by entry. |
| `Sgd.SgdStepAtExactFit` | src/ensemble_nn/agent_nn.py:114-126 | When the network fits every minibatch target, one step scales every deviation from the prior by `1 - lr*2/(prior_var*(t+1))`. |
| `Sgd.ScaledDeviationShrinks` | src/ensemble_nn/agent_nn.py:122-126 | A scale factor strictly between -1 and 1 never moves an entry away from the prior. It moves an entry strictly closer when the entry is not at the prior. |
| `Sgd.SgdStepPullsTowardPrior` | src/ensemble_nn/agent_nn.py:379-385 | At an exact fit, if `0 < lr*2/(prior_var*(t+1)) < 2`, one step moves every weight at least as close to the prior. It moves every weight not already at the prior strictly closer. The prior is zero or the member's snapshot. |
| `Selection.ArgMax` | src/ensemble_nn/agent_nn.py:143 | `np.argmax`: the result is an index of the scores, no score exceeds it, and every earlier score is strictly smaller. |
| `Selection.AnnealedEpsilon` | src/ensemble_nn/agent_nn.py:156 | No rate exactly when `epsilon_param + t == 0` (the division by zero). Otherwise `epsilon * (epsilon_param + t) == epsilon_param`. |
| `Selection.AnnealedEpsilonInUnitInterval` | src/ensemble_nn/agent_nn.py:150-156 | For `epsilon_param >= 0` and `epsilon_param + t > 0`, the rate exists and lies in `[0, 1]`. |
| `Selection.AnnealedEpsilonNonIncreasing` | src/ensemble_nn/agent_nn.py:150-156 | For `epsilon_param >= 0`, the rate at a later step is at most the rate at an earlier one. |
| `Buffers.SubScaledInPlace2` | src/ensemble_nn/agent_nn.py:125 | `W1 -= lr*dW1` in place: the new contents are the old minus `lr` times `dW1`, entry by entry. |
| `Buffers.SubScaledInPlace` | src/ensemble_nn/agent_nn.py:126 | `W2 -= lr*dW2` in place, likewise. |
| `Buffers.SubScaledSliceInPlace` | src/ensemble_nn/agent_nn.py:384 | `W1[m] -= lr*dW1`: slice `m` becomes the old slice minus `lr*dW1`. Every other slice is unchanged. |
| `Buffers.SubScaledRowInPlace` | src/ensemble_nn/agent_nn.py:385 | `W2[m] -= lr*dW2`: row `m` becomes the old row minus `lr*dW2`. Every other row is unchanged. |
| `Buffers.WriteRow` | src/ensemble_nn/agent_nn.py:131 | `action_hist[t] = row`: the buffer is the old one with row `t` replaced, and nothing else changed. |
| `Buffers.WriteEntry` | src/ensemble_nn/agent_nn.py:398 | `model_reward_hist[m, t] = v`: row `m` is the old row with slot `t` replaced. Every other row is unchanged. |
| `Buffers.Copy3` | src/ensemble_nn/agent_nn.py:310 | `np.copy` of the 3-D prior: a fresh buffer with every slice equal. |
| `Buffers.Copy2` | src/ensemble_nn/agent_nn.py:311 | `np.copy` of the 2-D prior: a fresh buffer with every row equal. |
| `SingleModel.SingleModelAgent.constructor` | src/ensemble_nn/agent_nn.py:54-71 | Weights are `0.01` times the caller's normal draws, history buffers are zero and sized by the horizon, and the hyperparameters are stored. |
| `SingleModel.SingleModelAgent.DescendInPlace` | src/ensemble_nn/agent_nn.py:125-126 | The weights become `Descend(old weights, dW, lr)`. |
| `SingleModel.SingleModelAgent.GradientStep` | src/ensemble_nn/agent_nn.py:113-126 | One loop pass leaves the weights equal to `SgdStep` of the old weights, toward the zero prior. |
| `SingleModel.SingleModelAgent.UpdateModel` | src/ensemble_nn/agent_nn.py:110-126 | `_update_model(t)` leaves the weights equal to `SgdSteps` of the old weights over the draws, at the current learning rate. |
| `SingleModel.SingleModelAgent.Record` | src/ensemble_nn/agent_nn.py:130-132 | Slot `t` holds the chosen action's row and the reward. Every other slot is unchanged. |
| `SingleModel.SingleModelAgent.UpdateObservation` | src/ensemble_nn/agent_nn.py:128-134 | Slot `t` is written and the other slots are kept. The weights are `SgdSteps` at the learning rate on entry. Then `lr` is multiplied by `lr_decay` exactly once. |
| `SingleModel.SingleModelAgent.PickAction` | src/ensemble_nn/agent_nn.py:136-163 | No action exactly for the annealing agent at `epsilon_param + t == 0`. When exploring (`u < epsilon`), the random action. Otherwise the first arg-max of the scores; for the dropout agent that is the dropout scores under its mask (lines 262-267). With `epsilon <= 0`, the fixed agent always acts greedily. When every dropout draw exceeds `p`, the dropout agent returns the first arg-max of the plain forward scores. |
| `Ensemble.PerturbedRewards` | src/ensemble_nn/agent_nn.py:397-398 | One perturbed reward per member. `UpdateObservation` states that member `m`'s reward row receives entry `m`. |
| `Ensemble.EnsembleAgent.constructor` | src/ensemble_nn/agent_nn.py:304-325 | Each prior is the prior scale times the caller's normal draws. Every member starts equal to its prior. History and reward rows are zero. |
| `Ensemble.EnsembleAgent.DescendMember` | src/ensemble_nn/agent_nn.py:384-385 | Member `m` becomes `Descend(old member m, dW, lr)`. Every other member is unchanged. |
| `Ensemble.EnsembleAgent.GradientStep` | src/ensemble_nn/agent_nn.py:369-385 | One loop pass leaves member `m` equal to `SgdStep` toward its own prior, on its own reward row. Every other member is unchanged. |
| `Ensemble.EnsembleAgent.UpdateModel` | src/ensemble_nn/agent_nn.py:366-386 | `_update_model(m, t)` leaves member `m` equal to `SgdSteps` toward its prior. Every other member is unchanged, and the priors are untouched (not in the frame). |
| `Ensemble.EnsembleAgent.ObserveMember` | src/ensemble_nn/agent_nn.py:397-399 | Member `m`'s reward row gets the perturbed reward at slot `t`, and member `m` is then trained. Other reward rows and other members are unchanged. |
| `Ensemble.EnsembleAgent.ObserveAll` | src/ensemble_nn/agent_nn.py:396-399 | After the loop, every member's row holds its own perturbed reward at `t`, and every member is `SgdSteps` of its old weights on its row. |
| `Ensemble.EnsembleAgent.UpdateObservation` | src/ensemble_nn/agent_nn.py:388-401 | Action row `t` is written. Each member's reward row holds `reward + sqrt(noise_var)*noise[m]` at `t` and is otherwise unchanged. Each member is trained at the learning rate on entry. Then `lr` is multiplied by `lr_decay` once. |
| `Ensemble.EnsembleAgent.PickAction` | src/ensemble_nn/agent_nn.py:403-411 | For a member index `m` in `[0, M)`, the first arg-max of member `m`'s scores over the actions. |

## Left out

- Random number generation (`rd.randn`, `rd.rand`, `rd.randint`) is left out. Each
  draw is a parameter, constrained only by its range. Uniformity and other
  statistical properties are not modelled.
- `np.sqrt(prior_var)` and `np.sqrt(noise_var)` are not computed. They are
  parameters `priorStd` and `noiseStd`, each non-negative with a square equal to the
  variance.
- IEEE floating point (rounding, NaN, overflow) is left out; all arithmetic is over
  the reals.
- The `base.agent.Agent` base class and the `env_nn` import are not part of this
  model.
- Whether the backward pass is the true derivative of the squared error is not
  proved; that is calculus rather than the code's algebra. The same goes for
  convergence and for ensemble diversity.
- Calls the source would fail on are excluded by preconditions, one per case:
  - `t` outside `[0, T)`: NumPy raises, or a negative index wraps.
  - An action index outside the action set.
  - An empty action set: `np.argmax` raises.
  - Actions whose width is not `input_dim`. Both constructors and both `Valid()`
    predicates require every action to have `input_dim` entries. The source stores any
    `actions`. A wrong width fails only at the first forward pass or history write,
    and NumPy silently broadcasts a width-1 action set.
- The single-network constructor accepts any variances and batch size, as the source
  does. The ensemble constructor takes `sqrt(prior_var)` and `sqrt(noise_var)` as
  parameters `priorStd` and `noiseStd`. Each must be non-negative with its square equal
  to the variance, so that constructor requires both variances to be non-negative.
  For a negative `prior_var` the source instead builds NaN priors, with only a NumPy
  warning. For a negative `noise_var` it takes the square root only
  in `update_observation` (line 397), where the perturbed rewards become NaN. A
  gradient step requires `prior_var != 0`, `noise_var != 0` and `batch_size > 0`
  (`Sgd.Hyper.Sound`). So `UpdateModel` and `UpdateObservation` require them only
  when `num_gradient_steps > 0`. With a zero variance the source raises
  `ZeroDivisionError` at its first gradient step. With `batch_size == 0` it raises
  nothing: the empty minibatch gives zero gradients, and `0/0` turns every weight
  into NaN. NaN is outside the reals, so that call is refused.
- Python's default arguments are not modelled; every constructor parameter is
  explicit. The defaults are `epsilon_param=0.0`, `drop_prob=0.5`, `num_models=10`,
  `learning_rate=1e-1`, `num_gradient_steps=1`, `batch_size=64`, `lr_decay=1` and
  `leaky_coeff=0.01`.
- The annealing agent's `ZeroDivisionError` at `epsilon_param + t == 0` is kept: it is
  the `None` result of `AnnealedEpsilon` and `PickAction`. Under the default
  `epsilon_param=0.0`, that is exactly the call at `t = 0`.
- `Ensemble.EnsembleAgent.PickAction` takes the member index as a parameter in
  `[0, M)`. With `M == 0` no call is possible, where `rd.randint(0)` would raise.
- The `cache` tuples are datatypes. Their `input_actions` component is left out,
  because the callers already hold the input.
