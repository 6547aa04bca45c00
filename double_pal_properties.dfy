/** Properties of the Double-PAL target builder that relate several calls or
    several inputs: what a terminal transition ignores, what the online network
    contributes to the target, when the persistent correction raises or lowers
    the backup, why the order of a transition's estimators does not matter, the
    single-estimator case, and the worked examples. */
module DoublePalProperties {
  import opened Averages
  import opened ActionValues
  import opened DoublePal

  /** Entry i of both outputs depends on transition i alone: two batches that
      agree on transition i agree on entry i, whatever their other transitions. */
  lemma OutputsArePositional<S, A>(agent: Agent<S, A>, b1: Batch<S, A>, b2: Batch<S, A>, i: nat, j: nat)
    requires WellShaped(agent, b1) && WellShaped(agent, b2)
    requires i < |b1.reward| && j < |b2.reward|
    requires b1.state[i] == b2.state[j] && b1.nextState[i] == b2.nextState[j]
    requires b1.action[i] == b2.action[j] && b1.reward[i] == b2.reward[j]
    requires b1.isStateTerminal[i] == b2.isStateTerminal[j] && b1.discount[i] == b2.discount[j]
    ensures BatchQ(agent, b1)[i] == BatchQ(agent, b2)[j]
    ensures TpalQ(agent, b1)[i] == TpalQ(agent, b2)[j]
  {
  }

  /** A terminal transition's target is its reward plus the advantage correction:
      it depends neither on its discount nor on the online network (which only
      selects the bootstrap action). */
  lemma TerminalTargetIgnoresBootstrap<S, A>(
    agent: Agent<S, A>, b: Batch<S, A>, otherOnline: Network<S, A>, otherDiscount: real, i: nat)
    requires WellShaped(agent, b)
    requires i < |b.reward| && b.isStateTerminal[i]
    requires WellShaped(agent.(model := otherOnline), b.(discount := b.discount[i := otherDiscount]))
    ensures TpalQ(agent.(model := otherOnline), b.(discount := b.discount[i := otherDiscount]))[i]
         == TpalQ(agent, b)[i]
    ensures TpalQ(agent, b)[i] == b.reward[i] + agent.alpha * Max(
      MeanAdvantage(agent.targetModel(b.state[i]), b.action[i]),
      MeanAdvantage(agent.targetModel(b.nextState[i]), b.action[i]))
  {
  }

  /** Double estimator: the online network enters the target only through the
      greedy actions it selects on the next states; any online network that
      selects the same actions yields the same targets. */
  lemma OnlineNetworkOnlySelects<S, A>(agent: Agent<S, A>, b: Batch<S, A>, otherOnline: Network<S, A>)
    requires WellShaped(agent, b) && WellShaped(agent.(model := otherOnline), b)
    requires forall i :: 0 <= i < |b.nextState| ==>
      GreedyActions(otherOnline(b.nextState[i])) == GreedyActions(agent.model(b.nextState[i]))
    ensures TpalQ(agent.(model := otherOnline), b) == TpalQ(agent, b)
  {
  }

  /** With alpha > 0 the correction raises the target above the Bellman backup
      exactly when one of the two averaged advantages is non-negative. */
  lemma CorrectionSign<A>(
    reward: real, discount: real, terminal: bool, alpha: real,
    nextOnline: ActionValue<A>, targetCur: ActionValue<A>, targetNext: ActionValue<A>,
    actions: seq<A>)
    requires |actions| > 0
    requires |nextOnline| == |targetCur| == |targetNext| == |actions|
    requires alpha > 0.0
    ensures TransitionTarget(reward, discount, terminal, alpha, nextOnline, targetCur, targetNext, actions)
            >= BellmanTarget(reward, discount, terminal, NextQMax(nextOnline, targetNext))
        <==> MeanAdvantage(targetCur, actions) >= 0.0 || MeanAdvantage(targetNext, actions) >= 0.0
  {
  }

  /** When every estimator's advantage at its recorded action is at most zero in
      both target-network outputs (advantages measured against the greedy value),
      a non-negative alpha can only lower the target below the Bellman backup. */
  lemma GapAdvantagesLowerTarget<A>(
    reward: real, discount: real, terminal: bool, alpha: real,
    nextOnline: ActionValue<A>, targetCur: ActionValue<A>, targetNext: ActionValue<A>,
    actions: seq<A>)
    requires |actions| > 0
    requires |nextOnline| == |targetCur| == |targetNext| == |actions|
    requires alpha >= 0.0
    requires forall e :: 0 <= e < |actions| ==>
      targetCur[e].advantage(actions[e]) <= 0.0 && targetNext[e].advantage(actions[e]) <= 0.0
    ensures TransitionTarget(reward, discount, terminal, alpha, nextOnline, targetCur, targetNext, actions)
            <= BellmanTarget(reward, discount, terminal, NextQMax(nextOnline, targetNext))
  {
    MeanAtMost(ComputeAdvantage(targetCur, actions), 0.0);
    MeanAtMost(ComputeAdvantage(targetNext, actions), 0.0);
    var m := Max(MeanAdvantage(targetCur, actions), MeanAdvantage(targetNext, actions));
    assert alpha * m <= 0.0;
  }

  /** When every estimator's current-state advantage at its recorded action is
      non-negative, a non-negative alpha keeps the target at or above the backup. */
  lemma NonNegativeAdvantagesRaiseTarget<A>(
    reward: real, discount: real, terminal: bool, alpha: real,
    nextOnline: ActionValue<A>, targetCur: ActionValue<A>, targetNext: ActionValue<A>,
    actions: seq<A>)
    requires |actions| > 0
    requires |nextOnline| == |targetCur| == |targetNext| == |actions|
    requires alpha >= 0.0
    requires forall e :: 0 <= e < |actions| ==> 0.0 <= targetCur[e].advantage(actions[e])
    ensures TransitionTarget(reward, discount, terminal, alpha, nextOnline, targetCur, targetNext, actions)
            >= BellmanTarget(reward, discount, terminal, NextQMax(nextOnline, targetNext))
  {
    MeanAtLeast(ComputeAdvantage(targetCur, actions), 0.0);
    var m := Max(MeanAdvantage(targetCur, actions), MeanAdvantage(targetNext, actions));
    assert alpha * m >= 0.0;
  }

  /** Permuting a transition's estimators, in all four network outputs, together
      with their recorded actions changes neither its current estimate nor its
      target. */
  lemma EstimatorOrderIrrelevant<A>(
    reward: real, discount: real, terminal: bool, alpha: real,
    q: ActionValue<A>, nextOnline: ActionValue<A>, targetCur: ActionValue<A>, targetNext: ActionValue<A>,
    actions: seq<A>, p: seq<nat>)
    requires |actions| > 0
    requires |q| == |nextOnline| == |targetCur| == |targetNext| == |actions|
    requires IsPermutation(p, |actions|)
    ensures CurrentValue(Permute(q, p), Permute(actions, p)) == CurrentValue(q, actions)
    ensures TransitionTarget(reward, discount, terminal, alpha,
              Permute(nextOnline, p), Permute(targetCur, p), Permute(targetNext, p), Permute(actions, p))
         == TransitionTarget(reward, discount, terminal, alpha, nextOnline, targetCur, targetNext, actions)
  {
    PermuteCapabilities(q, actions, p);
    MeanPermute(EvaluateActions(q, actions), p);

    PermuteCapabilities(nextOnline, actions, p);
    var greedy := GreedyActions(nextOnline);
    PermuteCapabilities(targetNext, greedy, p);
    MeanPermute(EvaluateActions(targetNext, greedy), p);

    PermuteCapabilities(targetCur, actions, p);
    MeanPermute(ComputeAdvantage(targetCur, actions), p);
    PermuteCapabilities(targetNext, actions, p);
    MeanPermute(ComputeAdvantage(targetNext, actions), p);
  }

  /** Single-head Double PAL, written directly: the target network evaluates the
      online network's greedy next action, and the correction is the larger of
      the target network's current and next advantage at the taken action. */
  function SingleHeadDoublePal<A>(
    reward: real, discount: real, terminal: bool, alpha: real,
    nextOnline: Estimator<A>, targetCur: Estimator<A>, targetNext: Estimator<A>, action: A): real
  {
    var bootstrap := if terminal then 0.0 else discount * targetNext.value(nextOnline.greedy);
    var curAdv := targetCur.advantage(action);
    var nextAdv := targetNext.advantage(action);
    reward + bootstrap + alpha * (if curAdv >= nextAdv then curAdv else nextAdv)
  }

  /** With one estimator per transition the averaged builder is single-head
      Double PAL, and the current estimate is that estimator's value. */
  lemma SingleEstimatorIsDoublePal<A>(
    reward: real, discount: real, terminal: bool, alpha: real,
    q: Estimator<A>, nextOnline: Estimator<A>, targetCur: Estimator<A>, targetNext: Estimator<A>, action: A)
    ensures CurrentValue([q], [action]) == q.value(action)
    ensures TransitionTarget(reward, discount, terminal, alpha, [nextOnline], [targetCur], [targetNext], [action])
         == SingleHeadDoublePal(reward, discount, terminal, alpha, nextOnline, targetCur, targetNext, action)
  {
    assert EvaluateActions([q], [action]) == [q.value(action)];
    MeanSingleton(q.value(action));
    assert EvaluateActions([targetNext], GreedyActions([nextOnline])) == [targetNext.value(nextOnline.greedy)];
    MeanSingleton(targetNext.value(nextOnline.greedy));
    assert ComputeAdvantage([targetCur], [action]) == [targetCur.advantage(action)];
    MeanSingleton(targetCur.advantage(action));
    assert ComputeAdvantage([targetNext], [action]) == [targetNext.advantage(action)];
    MeanSingleton(targetNext.advantage(action));
  }

  /** Stub networks for the worked examples: state 0 is the current state and
      state 1 the next one; every estimator values any action at 2.0, and the
      target network's advantage is 0.5 on state 0 and 0.3 on state 1. */
  function StubAgent(): Agent<int, int>
  {
    Agent(
      s => [Estimator(a => 2.0, 0, a => 0.0)],
      s => [Estimator(a => 2.0, 0, a => if s == 0 then 0.5 else 0.3)],
      1.0)
  }

  function StubBatch(terminal: bool): Batch<int, int>
  {
    Batch([0], [1], [[0]], [1.0], [terminal], [0.99])
  }

  /** Worked example: reward 1.0, discount 0.99, bootstrap value 2.0, advantages
      0.5 and 0.3, alpha 1.0. Non-terminal: backup 2.98, target 3.48; terminal:
      backup 1.0, target 1.5. */
  lemma WorkedExample()
    ensures WellShaped(StubAgent(), StubBatch(false)) && WellShaped(StubAgent(), StubBatch(true))
    ensures BellmanTarget(1.0, 0.99, false, 2.0) == 2.98
    ensures TpalQ(StubAgent(), StubBatch(false)) == [3.48]
    ensures BellmanTarget(1.0, 0.99, true, 2.0) == 1.0
    ensures TpalQ(StubAgent(), StubBatch(true)) == [1.5]
    ensures BatchQ(StubAgent(), StubBatch(false)) == [2.0]
  {
    var agent := StubAgent();
    var cur := agent.targetModel(0);
    var next := agent.targetModel(1);
    var online := agent.model(1);
    SingleEstimatorIsDoublePal(1.0, 0.99, false, 1.0, agent.model(0)[0], online[0], cur[0], next[0], 0);
    SingleEstimatorIsDoublePal(1.0, 0.99, true, 1.0, agent.model(0)[0], online[0], cur[0], next[0], 0);
    assert TpalQ(agent, StubBatch(false))[0] == 3.48;
    assert TpalQ(agent, StubBatch(true))[0] == 1.5;
  }
}
