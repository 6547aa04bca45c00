/** What a value network returns for one state. In the multi-agent (multi-head)
    setting each transition carries several independent estimators, one per agent
    or head, each with its own recorded action. The network's forward pass and the
    internals of the three capabilities below are not part of this model: an
    estimator is just the three operations the target builder calls on it. */
module ActionValues {
  import opened Averages

  /** One estimator's output for one state: the value of any action
      (`evaluate_actions`), its own greedy action (`greedy_actions`) and the
      advantage of any action (`compute_advantage`). */
  datatype Estimator<!A> = Estimator(value: A -> real, greedy: A, advantage: A -> real)

  /** A network's output for one state: one estimator per agent or head. */
  type ActionValue<!A> = seq<Estimator<A>>

  /** `evaluate_actions`: estimator e evaluated at the action recorded for e. */
  function EvaluateActions<A>(q: ActionValue<A>, actions: seq<A>): (r: seq<real>)
    requires |actions| == |q|
    ensures |r| == |q|
  {
    seq(|q|, e requires 0 <= e < |q| => q[e].value(actions[e]))
  }

  /** `greedy_actions`: each estimator's own greedy action, in estimator order. */
  function GreedyActions<A>(q: ActionValue<A>): (r: seq<A>)
    ensures |r| == |q|
  {
    seq(|q|, e requires 0 <= e < |q| => q[e].greedy)
  }

  /** `compute_advantage`: estimator e's advantage at the action recorded for e. */
  function ComputeAdvantage<A>(q: ActionValue<A>, actions: seq<A>): (r: seq<real>)
    requires |actions| == |q|
    ensures |r| == |q|
  {
    seq(|q|, e requires 0 <= e < |q| => q[e].advantage(actions[e]))
  }

  /** Reordering the estimators together with their actions reorders the
      evaluated values the same way, and likewise for greedy actions and
      advantages: each estimator stays paired with its own action. */
  lemma PermuteCapabilities<A>(q: ActionValue<A>, actions: seq<A>, p: seq<nat>)
    requires |actions| == |q| && IsPermutation(p, |q|)
    ensures EvaluateActions(Permute(q, p), Permute(actions, p)) == Permute(EvaluateActions(q, actions), p)
    ensures GreedyActions(Permute(q, p)) == Permute(GreedyActions(q), p)
    ensures ComputeAdvantage(Permute(q, p), Permute(actions, p)) == Permute(ComputeAdvantage(q, actions), p)
  {
  }
}
