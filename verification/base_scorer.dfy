/**
 * BaseBeamScorer: the default scorer of the CTC beam-search decoder. It keeps
 * no per-beam state, so its three hooks leave the state they are given as it
 * is, and its score accessors add nothing to the network's scores. Scores are
 * log10 probabilities; combining two of them is addition.
 */
module BaseScoring {

  /** InitializeState: the root state is left as allocated. */
  function InitializeState<S>(root: S): (r: S)
    ensures r == root
  {
    root
  }

  /** ExpandState: the child's state is left as allocated (it is not even copied from the parent). */
  function ExpandState<S>(fromState: S, fromLabel: int, toState: S, toLabel: int): (r: S)
    ensures r == toState
  {
    toState
  }

  /** ExpandStateEnd: no sentence-final scoring. */
  function ExpandStateEnd<S>(state: S): (r: S)
    ensures r == state
  {
    state
  }

  /** The network's score of the step passes through unchanged. */
  function GetStateExpansionScore<S>(state: S, previousScore: real): (r: real)
    ensures r == previousScore
  {
    previousScore
  }

  /** The end of decoding contributes log-probability zero. */
  function GetStateEndExpansionScore<S>(state: S): (r: real)
    ensures r == 0.0
  {
    0.0
  }

  function Sum(xs: seq<real>): real
  {
    if xs == [] then 0.0 else xs[0] + Sum(xs[1..])
  }

  /**
   * The score a decoder accumulates along one path when it folds each step's
   * network score through GetStateExpansionScore and finally adds
   * GetStateEndExpansionScore of the last state.
   */
  function PathScore<S>(states: seq<S>, network: seq<real>): real
    requires |states| == |network| > 0
    decreases |states|
  {
    if |states| == 1 then
      GetStateExpansionScore(states[0], network[0]) + GetStateEndExpansionScore(states[0])
    else
      GetStateExpansionScore(states[0], network[0]) + PathScore(states[1..], network[1..])
  }

  /** With the default scorer a path scores exactly what the network gives it: plain CTC decoding. */
  lemma {:induction false} DefaultScoringIsPlainCtc<S>(states: seq<S>, network: seq<real>)
    requires |states| == |network| > 0
    ensures PathScore(states, network) == Sum(network)
    decreases |states|
  {
    if |states| > 1 {
      DefaultScoringIsPlainCtc(states[1..], network[1..]);
    } else {
      assert network[1..] == [];
    }
  }
}
