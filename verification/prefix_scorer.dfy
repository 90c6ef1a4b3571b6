/**
 * PrefixScorer: penalises a beam once for every word whose letters leave the
 * vocabulary trie. Its per-beam state is an accumulated penalty `prob` and a
 * trie cursor `node`, absent once the word being spelt is no trie prefix.
 */
module PrefixScoring {
  import opened Options
  import opened Labels
  import opened Tries

  /** What a word that leaves the trie costs, in log10 units. */
  const MissingPrefixPenalty: real := 1.0

  /** The value of a PrefixBeamState. */
  datatype PrefixState = PrefixState(prob: real, node: Option<NodeId>)

  /**
   * The state ExpandState writes into the child for the transition
   * fromLabel -> toLabel: a repeat or a blank changes nothing, the separator
   * returns the cursor to the root, and a letter moves a present cursor to its
   * child, charging the penalty when there is none.
   */
  function Expand(trie: Trie, s: PrefixState, fromLabel: int, toLabel: int): (r: PrefixState)
    requires ValidTrie(trie) && IsCursor(trie, s.node) && ValidLabel(toLabel)
    ensures IsCursor(trie, r.node)
    ensures IsRepeatOrBlank(fromLabel, toLabel) ==> r == s
    ensures IsWordBoundary(fromLabel, toLabel) ==> r == PrefixState(s.prob, Some(trie.root))
    ensures IsLetterStep(fromLabel, toLabel) && s.node.None? ==> r == s
    ensures IsLetterStep(fromLabel, toLabel) && s.node.Some? ==>
              r.node == GetChildAt(trie, s.node.value, toLabel)
    ensures r.prob == s.prob || r.prob == s.prob - MissingPrefixPenalty
    ensures r.prob == s.prob - MissingPrefixPenalty <==>
              IsLetterStep(fromLabel, toLabel) && s.node.Some? && r.node.None?
  {
    if IsRepeatOrBlank(fromLabel, toLabel) then s
    else if IsSpaceLabel(toLabel) then s.(node := Some(trie.root))
    else if s.node.None? then s
    else
      var child := GetChildAt(trie, s.node.value, toLabel);
      if child.None? then PrefixState(s.prob - MissingPrefixPenalty, child)
      else s.(node := child)
  }

  /** Both accessors return the accumulated penalty, whatever the network's score of the step. */
  function GetStateExpansionScore(s: PrefixState, previousScore: real): (r: real)
    ensures r == s.prob
  {
    s.prob
  }

  function GetStateEndExpansionScore(s: PrefixState): (r: real)
    ensures r == s.prob
  {
    s.prob
  }

  lemma ScoresIgnorePreviousScore(s: PrefixState, p: real, q: real)
    ensures GetStateExpansionScore(s, p) == GetStateExpansionScore(s, q) == GetStateEndExpansionScore(s)
  {
  }

  /** The state after expanding along `labels`, the beam's last label being `prevLabel`. */
  function Run(trie: Trie, s: PrefixState, prevLabel: int, labels: seq<int>): (r: PrefixState)
    requires ValidTrie(trie) && IsCursor(trie, s.node) && ValidLabels(labels)
    ensures IsCursor(trie, r.node)
    ensures r.prob <= s.prob
    decreases |labels|
  {
    if labels == [] then s
    else Run(trie, Expand(trie, s, prevLabel, labels[0]), labels[0], labels[1..])
  }

  function CountSeparators(labels: seq<int>): nat
  {
    if labels == [] then 0
    else (if IsSpaceLabel(labels[0]) then 1 else 0) + CountSeparators(labels[1..])
  }

  /**
   * Within one word (no separator among the labels) the penalty is charged at
   * most once, and only by leaving the trie; a beam already out of the trie
   * does not change at all.
   */
  lemma {:induction false} PenaltyOncePerWord(trie: Trie, s: PrefixState, prevLabel: int, labels: seq<int>)
    requires ValidTrie(trie) && IsCursor(trie, s.node) && ValidLabels(labels)
    requires forall i :: 0 <= i < |labels| ==> !IsSpaceLabel(labels[i])
    ensures var r := Run(trie, s, prevLabel, labels);
            r.prob == s.prob || (r.prob == s.prob - MissingPrefixPenalty && r.node.None?)
    ensures s.node.None? ==> Run(trie, s, prevLabel, labels) == s
    decreases |labels|
  {
    if labels != [] {
      var t := Expand(trie, s, prevLabel, labels[0]);
      PenaltyOncePerWord(trie, t, labels[0], labels[1..]);
    }
  }

  /** Along any path the total penalty is at most one per word: the separators plus the word in progress. */
  lemma {:induction false} PenaltyAtMostOncePerWord(trie: Trie, s: PrefixState, prevLabel: int, labels: seq<int>)
    requires ValidTrie(trie) && IsCursor(trie, s.node) && ValidLabels(labels)
    ensures s.prob - Run(trie, s, prevLabel, labels).prob
            <= (CountSeparators(labels) + (if s.node.Some? then 1 else 0)) as real * MissingPrefixPenalty
    decreases |labels|
  {
    if labels != [] {
      var t := Expand(trie, s, prevLabel, labels[0]);
      PenaltyAtMostOncePerWord(trie, t, labels[0], labels[1..]);
    }
  }

  /** PrefixBeamState: the per-beam record the scorer fills in. */
  class PrefixBeamState {
    var prob: real
    var node: Option<NodeId>

    function Value(): PrefixState
      reads this
    {
      PrefixState(prob, node)
    }
  }

  class PrefixScorer {
    const trie: Trie

    /** The trie is taken already deserialized. */
    constructor (trie: Trie)
      requires ValidTrie(trie)
      ensures Valid() && this.trie == trie
    {
      this.trie := trie;
    }

    ghost predicate Valid() {
      ValidTrie(trie)
    }

    method InitializeState(root: PrefixBeamState)
      modifies root
      ensures root.Value() == PrefixState(0.0, Some(trie.root))
    {
      root.prob := 0.0;
      root.node := Some(trie.root);
    }

    method ExpandState(fromState: PrefixBeamState, fromLabel: int, toState: PrefixBeamState, toLabel: int)
      requires Valid() && IsCursor(trie, fromState.node) && ValidLabel(toLabel)
      modifies toState
      ensures toState.Value() == Expand(trie, old(fromState.Value()), fromLabel, toLabel)
      ensures fromState != toState ==> unchanged(fromState)
    {
      CopyState(fromState, toState);

      if fromLabel == toLabel || IsBlankLabel(toLabel) {
        return;
      }

      if IsSpaceLabel(toLabel) {
        toState.node := Some(trie.root);
        return;
      }

      if toState.node == None {
        // the word already left the trie: its penalty has been charged
        return;
      }

      toState.node := GetChildAt(trie, toState.node.value, toLabel);
      if toState.node == None {
        toState.prob := toState.prob - MissingPrefixPenalty;
      }
    }

    method ExpandStateEnd(state: PrefixBeamState)
      ensures unchanged(state)
    {
    }

    method CopyState(from: PrefixBeamState, to: PrefixBeamState)
      modifies to
      ensures to.Value() == old(from.Value())
      ensures from != to ==> unchanged(from)
    {
      to.prob := from.prob;
      to.node := from.node;
    }
  }
}
