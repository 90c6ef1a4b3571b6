/**
 * Both scorers on a small vocabulary: "cat" seen 5 times and "car" 3 times,
 * so the root, "c" and "ca" have frequency 8.
 */
module Scenarios {
  import opened Options
  import opened Labels
  import opened Tries
  import opened LanguageModels
  import PrefixScoring
  import KenLMScoring

  const C: int := 2
  const A: int := 0
  const T: int := 19
  const X: int := 23

  function Node(frequency: nat, child: int, id: NodeId, child2: int, id2: NodeId): TrieNode
  {
    TrieNode(frequency, seq(ChildCount, k => if k == child then Some(id) else if k == child2 then Some(id2) else None))
  }

  function CatCarTrie(): (t: Trie)
    ensures ValidTrie(t)
  {
    var leaf := Node(0, -1, 0, -1, 0);
    Trie(map[0 := Node(8, C, 1, -1, 0), 1 := Node(8, A, 2, -1, 0), 2 := Node(8, T, 3, 17, 4),
             3 := leaf.(frequency := 5), 4 := leaf.(frequency := 3)], 0)
  }

  /**
   * Spelling "ca" keeps the cursor in the trie and scores log10(8/8); a
   * following "t" scores log10(5/8); "cx" leaves the trie at the "x" and scores
   * the fallback -10. Ending the beam on "cat" asks the model about "cat"
   * before the end of sentence.
   */
  lemma KenLMScoresCatCar(model: LanguageModel, log10: real -> real)
    ensures var res := KenLMScoring.Resources(model, CatCarTrie(), log10);
            var c := KenLMScoring.Expand(res, KenLMScoring.InitialState(res), -1, C);
            var ca := KenLMScoring.Expand(res, c, C, A);
            var cat := KenLMScoring.Expand(res, ca, A, T);
            var cx := KenLMScoring.Expand(res, c, C, X);
            && ca.incompleteWord == "ca" && ca.trieNode == Some(2) && ca.score == log10(1.0)
            && cat.incompleteWord == "cat" && cat.score == log10(5.0 / 8.0)
            && cx.incompleteWord == "cx" && cx.trieNode == None && cx.score == -10.0
            && KenLMScoring.ExpandEnd(res, cat).modelState
               == model.fullScore(model.beginSentenceState, model.index("cat")).out
  {
  }

  /** The prefix scorer charges "cxx" once, and "cx cx" twice. */
  lemma PrefixScoresCatCar()
    ensures var s := PrefixScoring.PrefixState(0.0, Some(0));
            && PrefixScoring.Run(CatCarTrie(), s, -1, [C, X, BlankLabel, X]).prob == -1.0
            && PrefixScoring.Run(CatCarTrie(), s, -1, [C, X, SpaceLabel, C, X]).prob == -2.0
  {
    var t := CatCarTrie();
    var s := PrefixScoring.PrefixState(0.0, Some(0));
    var c := PrefixScoring.Expand(t, s, -1, C);
    var cx := PrefixScoring.Expand(t, c, C, X);
    assert cx == PrefixScoring.PrefixState(-1.0, None);
    // once out of the trie, nothing changes until the separator
    PrefixScoring.PenaltyOncePerWord(t, cx, X, [BlankLabel, X]);
    assert [C, X, BlankLabel, X][1..][1..] == [BlankLabel, X];
    var sep := PrefixScoring.Expand(t, cx, X, SpaceLabel);
    var c2 := PrefixScoring.Expand(t, sep, SpaceLabel, C);
    var cx2 := PrefixScoring.Expand(t, c2, C, X);
    assert cx2.prob == -2.0;
    var path := [C, X, SpaceLabel, C, X];
    assert PrefixScoring.Run(t, c2, C, path[4..]) == cx2;
    assert PrefixScoring.Run(t, sep, SpaceLabel, path[3..]) == cx2;
    assert PrefixScoring.Run(t, cx, X, path[2..]) == cx2;
    assert PrefixScoring.Run(t, c, C, path[1..]) == cx2;
  }
}
