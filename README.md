# Double Persistent Advantage Learning target builder (multi-estimator)

This project models `DoublePAL._compute_y_and_t` from pfrl, in the form adapted so
that each transition carries several estimators (agents or value heads) whose
values are averaged. For a batch of B transitions the builder returns two
sequences of length B:

- `batch_q`: for each transition, the mean over its estimators of the online
  network's value at the action recorded for that estimator;
- `tpal_q`: the Double-PAL target. The online network picks each estimator's
  greedy action on the next state, and the target network evaluates it. The
  average is gated by the terminal flag into a Bellman backup. Then
  `alpha * max(current advantage, next advantage)` is added. Both advantages
  come from the target network at the recorded actions and are averaged over
  estimators.

Files:

- `averages.dfy` (module `Averages`): sum and arithmetic mean over the estimator
  dimension. A mean lies between bounds of its entries and does not depend on
  their order (permutations are index sequences that are in range, injective
  and onto).
- `action_values.dfy` (module `ActionValues`): an estimator is a record of its
  three capabilities, `value` (`evaluate_actions`), `greedy` (`greedy_actions`)
  and `advantage` (`compute_advantage`). A network's output for one state is a
  sequence of estimators.
- `double_pal.dfy` (module `DoublePal`): the per-transition and per-batch
  specification, the three accumulation loops as methods proved against it, the
  element-wise backup and fusion, and `ComputeYAndT`, which runs the whole
  builder.
- `double_pal_properties.dfy` (module `DoublePalProperties`): the properties
  that relate several inputs, and the worked examples.

Networks are total functions from a state to a sequence of estimators. Values
are exact reals. `is_state_terminal` is a boolean, and the source's
`1.0 - is_state_terminal` is kept literally through `TerminalFlag`. The discount
is a per-transition sequence; a scalar discount is the constant sequence.

Where the loops index one sequence by the position in another, the methods
follow the code. `EvaluateCurrent` accepts more action vectors than outputs, since
surplus ones are never read. `AdvantageTerms` iterates a zip, so it covers the
shorter of its two inputs. At the batch level, `ComputeYAndT` returns
`ShapeMismatch` exactly when the batch is not well-shaped. That means:

- an empty batch;
- state, next-state, reward, terminal or discount lengths that differ;
- fewer action vectors than transitions;
- estimator counts that are zero, that differ across transitions, or that differ
  between a transition's actions and its four network outputs.

Most of these make the code raise: an index past the end of a list,
`torch.stack` on an empty list or on rows of different widths, element-wise
arithmetic on tensors of different lengths that torch cannot broadcast. Zero
estimators give a NaN mean instead. Some mismatches are not errors in the code,
but the model rejects them anyway. These are listed under "## Left out".

## Model

| member | source | states |
|---|---|---|
| `DoublePal.ComputeYAndT` | pfrl/pfrl/agents/double_pal.py:8-101 | returns `ShapeMismatch` iff the batch is not well-shaped; otherwise both outputs have one entry per transition and equal the batch specification: `batch_q[i]` is the current estimate of transition i and `tpal_q[i]` its Double-PAL target |
| `DoublePal.EvaluateCurrent` | pfrl/pfrl/agents/double_pal.py:24-31 | one entry per online output; entry i is the mean over estimators of output i evaluated at transition i's own recorded actions |
| `DoublePal.DoubleBootstrap` | pfrl/pfrl/agents/double_pal.py:59-66 | one entry per next-state target output; entry i averages the target network's next-state values at the greedy actions of the online network's next-state output i |
| `DoublePal.BellmanTarget` | pfrl/pfrl/agents/double_pal.py:72-75 | a terminal transition's backup is its reward, whatever the discount and bootstrap value; a non-terminal one's is reward plus discount times the bootstrap value |
| `DoublePal.BellmanBackup` | pfrl/pfrl/agents/double_pal.py:72-75 | element-wise over the batch, with the same length: terminal entries are the reward, non-terminal ones reward + discount * next_q_max |
| `DoublePal.AdvantageTerms` | pfrl/pfrl/agents/double_pal.py:79-91 | over the zip of current- and next-state target outputs, entry i of each result is the mean advantage of that output at transition i's recorded actions (not the greedy ones) |
| `DoublePal.PalTarget` | pfrl/pfrl/agents/double_pal.py:99 | the target equals backup + alpha*cur or backup + alpha*next; for alpha >= 0 it is at least both; for alpha = 0 it is the backup |
| `DoublePal.PalFusion` | pfrl/pfrl/agents/double_pal.py:99 | element-wise over the batch, with the same length: each target is one of the two corrected values and, for alpha >= 0, at least both |
| `ActionValues.EvaluateActions` | pfrl/pfrl/agents/double_pal.py:27 | one value per estimator, estimator e evaluated at action e |
| `ActionValues.GreedyActions` | pfrl/pfrl/agents/double_pal.py:62 | one greedy action per estimator, in estimator order |
| `ActionValues.ComputeAdvantage` | pfrl/pfrl/agents/double_pal.py:83-84 | one advantage per estimator, estimator e at action e |
| `ActionValues.PermuteCapabilities` | pfrl/pfrl/agents/double_pal.py:26-29 | reordering estimators together with their actions reorders values, greedy actions and advantages in the same way, so each estimator stays paired with its own action |
| `Averages.MeanSingleton` | pfrl/pfrl/agents/double_pal.py:31 | the mean over a single estimator is that estimator's value |
| `Averages.MeanAtLeast` | pfrl/pfrl/agents/double_pal.py:88-89 | the mean over estimators is at least any lower bound of the per-estimator values |
| `Averages.MeanAtMost` | pfrl/pfrl/agents/double_pal.py:90-91 | the mean over estimators is at most any upper bound of the per-estimator values |
| `Averages.MeanPermute` | pfrl/pfrl/agents/double_pal.py:66 | the mean over estimators does not depend on their order |
| `DoublePalProperties.OutputsArePositional` | pfrl/pfrl/agents/double_pal.py:24-31 | entry i of both outputs depends only on transition i (its states, actions, reward, terminal flag, discount), never on another transition's |
| `DoublePalProperties.TerminalTargetIgnoresBootstrap` | pfrl/pfrl/agents/double_pal.py:72-99 | a terminal transition's target is reward + alpha * max(mean current advantage, mean next advantage); it is unchanged by a different online network or a different discount |
| `DoublePalProperties.OnlineNetworkOnlySelects` | pfrl/pfrl/agents/double_pal.py:54-66 | double estimator: two online networks that select the same greedy next actions give the same targets; values are taken from the target network only |
| `DoublePalProperties.CorrectionSign` | pfrl/pfrl/agents/double_pal.py:99 | for alpha > 0, target >= backup iff at least one of the two mean advantages is non-negative |
| `DoublePalProperties.GapAdvantagesLowerTarget` | pfrl/pfrl/agents/double_pal.py:82-99 | if every estimator's current and next advantage at its recorded action is <= 0 and alpha >= 0, the target is at most the backup |
| `DoublePalProperties.NonNegativeAdvantagesRaiseTarget` | pfrl/pfrl/agents/double_pal.py:82-99 | if every estimator's current advantage at its recorded action is >= 0 and alpha >= 0, the target is at least the backup |
| `DoublePalProperties.EstimatorOrderIrrelevant` | pfrl/pfrl/agents/double_pal.py:26-91 | permuting a transition's estimators in all four network outputs together with its actions changes neither its current estimate nor its target |
| `DoublePalProperties.SingleEstimatorIsDoublePal` | pfrl/pfrl/agents/double_pal.py:59-99 | with one estimator the current estimate is its value, and the target equals single-head Double PAL written directly |
| `DoublePalProperties.WorkedExample` | pfrl/pfrl/agents/double_pal.py:72-99 | reward 1.0, discount 0.99, bootstrap 2.0, advantages 0.5/0.3, alpha 1.0: backup 2.98, target 3.48 (terminal: 1.0 and 1.5), current estimate 2.0 |

## Left out

- The recurrent path (`pack_and_forward` with carried recurrent state) is not modelled; only the non-recurrent per-transition forward passes are.
- The networks' forward passes and the internals of `evaluate_actions`, `greedy_actions` and `compute_advantage` are abstract: an estimator is any record of the three operations. The base PAL class and the action-value classes are not part of this model, so no relation between an estimator's greedy action, values and advantages is assumed.
- The fixed 3-tuple unpacking of states (`elem[0], elem[1], elem[2]`) is not modelled: a state is an opaque value passed to the network.
- `torch.no_grad`, autograd and detaching have no counterpart; gradients have no meaning here.
- Float32 rounding is not modelled; all values are exact reals. NaN from a mean over no estimators is excluded by the shape check instead.
- Surplus states are rejected, although the code accepts them. If `state` is longer than `reward`, the code returns a `batch_q` longer than `tpal_q`. If `state` and `next_state` differ in length, the `zip` of the advantage loop truncates to the shorter. The model returns `ShapeMismatch` for any state or next-state length other than `len(reward)`.
- An out-of-range action index is not modelled: the three capabilities are total functions of the action, so the error the action-value classes raise for an action outside the action space cannot occur.
- Tensor broadcasting is not modelled: a length-1 reward, terminal or discount tensor that torch would broadcast against a longer batch is reported as `ShapeMismatch`. A scalar discount must be given as the constant sequence.
- The unused `batch_size`, the `exp_batch` dictionary lookups and the commented-out single-head advantage code have no counterpart. `SingleEstimatorIsDoublePal` states what the single-head formula would compute.
- Determinism holds by construction: every member is a function or a method without hidden state, so it needs no lemma.
- The replay buffer, optimizer, loss and target-network synchronisation are outside the builder and are not part of this model.
