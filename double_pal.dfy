/** The Double Persistent Advantage Learning target builder, in its multi-agent
    (multi-head) form: for a batch of transitions it returns the current estimate
    and the Double-PAL target, one entry per transition, each averaged over the
    transition's estimators.

    The per-transition specification (CurrentValue, NextQMax, MeanAdvantage,
    BellmanTarget, PalTarget, TransitionTarget) says what each entry is; the three
    accumulation loops of the source are methods proved against it; ComputeYAndT
    runs the whole builder and is proved equal to the batch specification
    (BatchQ, TpalQ) or reports an ill-shaped batch. */
module DoublePal {
  import opened Averages
  import opened ActionValues

  /** A value network: one ActionValue per state. The forward pass is not modelled. */
  type Network<!S, !A> = S -> ActionValue<A>

  /** What the builder reads from the agent: the online network (`self.model`),
      the target network (`self.target_model`) and the mixing weight `alpha`. */
  datatype Agent<!S, !A> = Agent(model: Network<S, A>, targetModel: Network<S, A>, alpha: real)

  /** A sampled batch of B transitions; `discount` is per transition (a scalar
      discount is the constant sequence). */
  datatype Batch<S, A> = Batch(
    state: seq<S>,
    nextState: seq<S>,
    action: seq<seq<A>>,
    reward: seq<real>,
    isStateTerminal: seq<bool>,
    discount: seq<real>)

  /** Result of the whole builder: both outputs, or a report that the batch is
      not well-shaped (most such batches make the source raise, from indexing,
      `torch.stack` or element-wise tensor arithmetic). */
  datatype Outcome = Ok(batchQ: seq<real>, tpalQ: seq<real>) | ShapeMismatch

  function Max(x: real, y: real): real
  {
    if x >= y then x else y
  }

  function Min(x: int, y: int): int
  {
    if x <= y then x else y
  }

  /** The 0/1 float the source stores for `is_state_terminal`. */
  function TerminalFlag(terminal: bool): real
  {
    if terminal then 1.0 else 0.0
  }

  /** Every sequence of the batch has B > 0 entries (actions past the B-th are
      never read: they are only reached by index), and every transition has the
      same positive number of estimators in its four network outputs and in its
      action vector (`torch.stack` refuses an empty list or rows of different
      widths; the mean over no estimators is undefined). */
  predicate WellShaped<S, A>(agent: Agent<S, A>, b: Batch<S, A>)
  {
    var n := |b.reward|;
    && n > 0
    && |b.state| == n && |b.nextState| == n && |b.action| >= n
    && |b.isStateTerminal| == n && |b.discount| == n
    && |b.action[0]| > 0
    && forall i :: 0 <= i < n ==>
         && |b.action[i]| == |b.action[0]|
         && |agent.model(b.state[i])| == |b.action[i]|
         && |agent.model(b.nextState[i])| == |b.action[i]|
         && |agent.targetModel(b.state[i])| == |b.action[i]|
         && |agent.targetModel(b.nextState[i])| == |b.action[i]|
  }

  // ---------------------------------------------------------------------------
  // Per-transition specification

  /** Current estimate: the mean over estimators of the online network's value at
      each estimator's recorded action. */
  function CurrentValue<A>(q: ActionValue<A>, actions: seq<A>): real
    requires |q| == |actions| > 0
  {
    Mean(EvaluateActions(q, actions))
  }

  /** Double-estimator bootstrap: each estimator's greedy action is chosen by the
      online network on the next state and evaluated by the target network on
      the next state; the results are averaged. */
  function NextQMax<A>(nextOnline: ActionValue<A>, targetNext: ActionValue<A>): real
    requires |nextOnline| == |targetNext| > 0
  {
    Mean(EvaluateActions(targetNext, GreedyActions(nextOnline)))
  }

  /** Mean over estimators of the advantage of each estimator's recorded action. */
  function MeanAdvantage<A>(q: ActionValue<A>, actions: seq<A>): real
    requires |q| == |actions| > 0
  {
    Mean(ComputeAdvantage(q, actions))
  }

  /** One-step Bellman backup gated by the terminal flag: a terminal transition
      keeps only its reward, whatever the bootstrap value and the discount. */
  function BellmanTarget(reward: real, discount: real, terminal: bool, nextQMax: real): (t: real)
    ensures terminal ==> t == reward
    ensures !terminal ==> t == reward + discount * nextQMax
  {
    reward + discount * (1.0 - TerminalFlag(terminal)) * nextQMax
  }

  /** Persistent-advantage correction: the backup plus alpha times the larger of
      the current and next advantage. It equals one of the two corrected values,
      with a non-negative alpha it is at least both, and with alpha = 0 it is the
      plain backup. */
  function PalTarget(tQ: real, alpha: real, curAdvantage: real, nextAdvantage: real): (r: real)
    ensures r == tQ + alpha * curAdvantage || r == tQ + alpha * nextAdvantage
    ensures alpha >= 0.0 ==> r >= tQ + alpha * curAdvantage && r >= tQ + alpha * nextAdvantage
    ensures alpha == 0.0 ==> r == tQ
  {
    tQ + alpha * Max(curAdvantage, nextAdvantage)
  }

  /** The Double-PAL target of one transition. Both advantages come from the
      target network and are taken at the recorded actions, not the greedy ones. */
  function TransitionTarget<A>(
    reward: real, discount: real, terminal: bool, alpha: real,
    nextOnline: ActionValue<A>, targetCur: ActionValue<A>, targetNext: ActionValue<A>,
    actions: seq<A>): real
    requires |actions| > 0
    requires |nextOnline| == |targetCur| == |targetNext| == |actions|
  {
    PalTarget(
      BellmanTarget(reward, discount, terminal, NextQMax(nextOnline, targetNext)),
      alpha,
      MeanAdvantage(targetCur, actions),
      MeanAdvantage(targetNext, actions))
  }

  // ---------------------------------------------------------------------------
  // Batch specification

  /** The current estimate for every transition of a well-shaped batch. */
  function BatchQ<S, A>(agent: Agent<S, A>, b: Batch<S, A>): seq<real>
    requires WellShaped(agent, b)
  {
    seq(|b.reward|, i requires 0 <= i < |b.reward| =>
      CurrentValue(agent.model(b.state[i]), b.action[i]))
  }

  /** The Double-PAL target for every transition of a well-shaped batch. */
  function TpalQ<S, A>(agent: Agent<S, A>, b: Batch<S, A>): seq<real>
    requires WellShaped(agent, b)
  {
    seq(|b.reward|, i requires 0 <= i < |b.reward| =>
      TransitionTarget(
        b.reward[i], b.discount[i], b.isStateTerminal[i], agent.alpha,
        agent.model(b.nextState[i]),
        agent.targetModel(b.state[i]),
        agent.targetModel(b.nextState[i]),
        b.action[i]))
  }

  // ---------------------------------------------------------------------------
  // The builder, stage by stage

  /** One forward pass per transition, in batch order (the non-recurrent list
      comprehensions). */
  function Forward<S, A>(net: Network<S, A>, states: seq<S>): (out: seq<ActionValue<A>>)
    ensures |out| == |states|
  {
    seq(|states|, i requires 0 <= i < |states| => net(states[i]))
  }

  /** `torch.mean(stacked, dim=1)`: the mean of every row. */
  function MeanOverEstimators(stacked: seq<seq<real>>): seq<real>
    requires forall i :: 0 <= i < |stacked| ==> |stacked[i]| > 0
  {
    seq(|stacked|, i requires 0 <= i < |stacked| => Mean(stacked[i]))
  }

  /** Stage 1: evaluates each transition's online output at that transition's
      recorded actions (the counter pairs output i with actions i), stacks the
      rows and averages over estimators. */
  method EvaluateCurrent<A>(qout: seq<ActionValue<A>>, batchActions: seq<seq<A>>)
    returns (batchQ: seq<real>)
    requires 0 < |qout| <= |batchActions|
    requires forall i :: 0 <= i < |qout| ==> |qout[i]| == |batchActions[i]| == |qout[0]| > 0
    ensures |batchQ| == |qout|
    ensures forall i :: 0 <= i < |qout| ==> batchQ[i] == CurrentValue(qout[i], batchActions[i])
  {
    var stacked: seq<seq<real>> := [];
    var count := 0;
    while count < |qout|
      invariant count <= |qout|
      invariant |stacked| == count
      invariant forall k :: 0 <= k < count ==> stacked[k] == EvaluateActions(qout[k], batchActions[k])
    {
      var qE := EvaluateActions(qout[count], batchActions[count]);
      count := count + 1;
      stacked := stacked + [qE];
    }
    batchQ := MeanOverEstimators(stacked);
  }

  /** Stage 2: for each transition, the target network's next-state output is
      evaluated at the greedy actions of the online network's next-state output
      (selection by the online network, evaluation by the target network), then
      averaged over estimators. */
  method DoubleBootstrap<A>(nextQout: seq<ActionValue<A>>, targetNextQout: seq<ActionValue<A>>)
    returns (nextQMax: seq<real>)
    requires 0 < |targetNextQout| <= |nextQout|
    requires forall i :: 0 <= i < |targetNextQout| ==>
      |targetNextQout[i]| == |nextQout[i]| == |targetNextQout[0]| > 0
    ensures |nextQMax| == |targetNextQout|
    ensures forall i :: 0 <= i < |targetNextQout| ==>
      nextQMax[i] == NextQMax(nextQout[i], targetNextQout[i])
  {
    var stacked: seq<seq<real>> := [];
    var count := 0;
    while count < |targetNextQout|
      invariant count <= |targetNextQout|
      invariant |stacked| == count
      invariant forall k :: 0 <= k < count ==>
        stacked[k] == EvaluateActions(targetNextQout[k], GreedyActions(nextQout[k]))
    {
      var qE := EvaluateActions(targetNextQout[count], GreedyActions(nextQout[count]));
      count := count + 1;
      stacked := stacked + [qE];
    }
    nextQMax := MeanOverEstimators(stacked);
  }

  /** Stage 3, element-wise over the batch: terminal transitions keep only their
      reward; the others add the discounted bootstrap value. */
  function BellmanBackup(rewards: seq<real>, discounts: seq<real>, terminals: seq<bool>, nextQMax: seq<real>)
    : (tQ: seq<real>)
    requires |discounts| == |terminals| == |nextQMax| == |rewards|
    ensures |tQ| == |rewards|
    ensures forall i :: 0 <= i < |rewards| && terminals[i] ==> tQ[i] == rewards[i]
    ensures forall i :: 0 <= i < |rewards| && !terminals[i] ==>
      tQ[i] == rewards[i] + discounts[i] * nextQMax[i]
  {
    seq(|rewards|, i requires 0 <= i < |rewards| =>
      BellmanTarget(rewards[i], discounts[i], terminals[i], nextQMax[i]))
  }

  /** Stage 4a: for each pair of target-network outputs (current and next state,
      iterated as a zip), the advantages of the transition's recorded actions,
      each averaged over estimators. */
  method AdvantageTerms<A>(
    targetQout: seq<ActionValue<A>>, targetNextQout: seq<ActionValue<A>>, batchActions: seq<seq<A>>)
    returns (curAdvantage: seq<real>, nextAdvantage: seq<real>)
    requires 0 < Min(|targetQout|, |targetNextQout|) <= |batchActions|
    requires forall i :: 0 <= i < Min(|targetQout|, |targetNextQout|) ==>
      |targetQout[i]| == |targetNextQout[i]| == |batchActions[i]| == |targetQout[0]| > 0
    ensures |curAdvantage| == |nextAdvantage| == Min(|targetQout|, |targetNextQout|)
    ensures forall i :: 0 <= i < |curAdvantage| ==>
      && curAdvantage[i] == MeanAdvantage(targetQout[i], batchActions[i])
      && nextAdvantage[i] == MeanAdvantage(targetNextQout[i], batchActions[i])
  {
    var n := Min(|targetQout|, |targetNextQout|);
    var curStacked: seq<seq<real>> := [];
    var nextStacked: seq<seq<real>> := [];
    var count := 0;
    while count < n
      invariant count <= n
      invariant |curStacked| == |nextStacked| == count
      invariant forall k :: 0 <= k < count ==>
        && curStacked[k] == ComputeAdvantage(targetQout[k], batchActions[k])
        && nextStacked[k] == ComputeAdvantage(targetNextQout[k], batchActions[k])
    {
      var qtCurAdvantage := ComputeAdvantage(targetQout[count], batchActions[count]);
      var qtNextAdvantage := ComputeAdvantage(targetNextQout[count], batchActions[count]);
      count := count + 1;
      curStacked := curStacked + [qtCurAdvantage];
      nextStacked := nextStacked + [qtNextAdvantage];
    }
    curAdvantage := MeanOverEstimators(curStacked);
    nextAdvantage := MeanOverEstimators(nextStacked);
  }

  /** Stage 4b, element-wise over the batch: every target is at least the backup
      plus alpha times either advantage (for alpha >= 0) and equals one of them. */
  function PalFusion(tQ: seq<real>, alpha: real, curAdvantage: seq<real>, nextAdvantage: seq<real>)
    : (tpal: seq<real>)
    requires |curAdvantage| == |nextAdvantage| == |tQ|
    ensures |tpal| == |tQ|
    ensures forall i :: 0 <= i < |tQ| ==>
      tpal[i] == tQ[i] + alpha * curAdvantage[i] || tpal[i] == tQ[i] + alpha * nextAdvantage[i]
    ensures alpha >= 0.0 ==> forall i :: 0 <= i < |tQ| ==>
      tpal[i] >= tQ[i] + alpha * curAdvantage[i] && tpal[i] >= tQ[i] + alpha * nextAdvantage[i]
  {
    seq(|tQ|, i requires 0 <= i < |tQ| => PalTarget(tQ[i], alpha, curAdvantage[i], nextAdvantage[i]))
  }

  /** `_compute_y_and_t` (non-recurrent path): the current estimate and the
      Double-PAL target of every transition, or ShapeMismatch exactly when the
      batch is not well-shaped. */
  method ComputeYAndT<S, A>(agent: Agent<S, A>, b: Batch<S, A>) returns (r: Outcome)
    ensures r.Ok? <==> WellShaped(agent, b)
    ensures r.Ok? ==> r.batchQ == BatchQ(agent, b) && r.tpalQ == TpalQ(agent, b)
  {
    if !WellShaped(agent, b) {
      return ShapeMismatch;
    }
    var qout := Forward(agent.model, b.state);
    var batchQ := EvaluateCurrent(qout, b.action);

    var nextQout := Forward(agent.model, b.nextState);
    var targetQout := Forward(agent.targetModel, b.state);
    var targetNextQout := Forward(agent.targetModel, b.nextState);

    var nextQMax := DoubleBootstrap(nextQout, targetNextQout);
    var tQ := BellmanBackup(b.reward, b.discount, b.isStateTerminal, nextQMax);
    var curAdvantage, nextAdvantage := AdvantageTerms(targetQout, targetNextQout, b.action);
    var tpalQ := PalFusion(tQ, agent.alpha, curAdvantage, nextAdvantage);

    assert batchQ == BatchQ(agent, b);
    assert tpalQ == TpalQ(agent, b);
    return Ok(batchQ, tpalQ);
  }
}
