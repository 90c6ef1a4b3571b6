/**
 * KenLMBeamScorer: rescores beams with a KenLM n-gram model and the
 * vocabulary trie. While a word is being spelt the beam's score is a cheap
 * prefix estimate (the log10 share of the corpus that starts with the word so
 * far) added to the last full model score; at a word separator the model's
 * full score of the word replaces it.
 */
module KenLMScoring {
  import opened Options
  import opened Labels
  import opened Tries
  import opened LanguageModels
  import BaseScoring

  /** The prefix estimate of a word that is no trie prefix, in log10 units. */
  const AbsentPrefixLogProb: real := -10.0

  /** What a scorer owns: the model, the trie, and the log10 of the platform's floating point. */
  datatype Resources = Resources(model: LanguageModel, trie: Trie, log10: real -> real)

  /** The value of a KenLMBeamState. */
  datatype KenLMState = KenLMState(
    score: real,
    languageModelScore: real,
    deltaScore: real,
    incompleteWord: string,
    trieNode: Option<NodeId>,
    modelState: ModelState)

  function InitialState(res: Resources): KenLMState
  {
    KenLMState(0.0, 0.0, 0.0, [], Some(res.trie.root), res.model.beginSentenceState)
  }

  /** log10(frequency of the cursor / frequency of the root), or the fallback when the cursor is absent. */
  function PrefixLogProb(res: Resources, node: Option<NodeId>): real
    requires ValidTrie(res.trie) && IsCursor(res.trie, node)
  {
    if node.None? then AbsentPrefixLogProb
    else res.log10(GetFrequency(res.trie, node.value) as real / GetFrequency(res.trie, res.trie.root) as real)
  }

  /** The model's verdict on `word` as the next token after `modelState`. */
  function ScoreIncompleteWord(model: LanguageModel, modelState: ModelState, word: string): (r: FullScoreResult)
    ensures r == model.fullScore(modelState, model.index(word))
  {
    model.fullScore(modelState, model.index(word))
  }

  /**
   * The state ExpandState writes into the child for fromLabel -> toLabel.
   * The word is scored at a separator even when it is empty.
   */
  function Expand(res: Resources, s: KenLMState, fromLabel: int, toLabel: int): (r: KenLMState)
    requires ValidTrie(res.trie) && IsCursor(res.trie, s.trieNode) && ValidLabel(toLabel)
    ensures IsCursor(res.trie, r.trieNode)
    ensures r.deltaScore == r.score - s.score
    ensures IsRepeatOrBlank(fromLabel, toLabel) ==> r == s.(deltaScore := 0.0)
    ensures IsLetterStep(fromLabel, toLabel) ==>
              && r.incompleteWord == s.incompleteWord + [GetCharacterFromLabel(toLabel)]
              && r.languageModelScore == s.languageModelScore
              && r.modelState == s.modelState
              && (s.trieNode.None? ==> r.trieNode.None?)
              && (s.trieNode.Some? ==> r.trieNode == GetChildAt(res.trie, s.trieNode.value, toLabel))
              && (r.trieNode.None? ==> r.score == AbsentPrefixLogProb + s.languageModelScore)
              && (r.trieNode.Some? ==>
                    r.score == res.log10(GetFrequency(res.trie, r.trieNode.value) as real
                                         / GetFrequency(res.trie, res.trie.root) as real)
                               + s.languageModelScore)
    ensures IsWordBoundary(fromLabel, toLabel) ==>
              var q := res.model.fullScore(s.modelState, res.model.index(s.incompleteWord));
              && r.score == r.languageModelScore == q.prob
              && r.modelState == q.out
              && r.incompleteWord == []
              && r.trieNode == Some(res.trie.root)
  {
    if IsRepeatOrBlank(fromLabel, toLabel) then
      s.(deltaScore := 0.0)
    else if !IsSpaceLabel(toLabel) then
      var node := Step(res.trie, s.trieNode, toLabel);
      var score := PrefixLogProb(res, node) + s.languageModelScore;
      s.(incompleteWord := s.incompleteWord + [GetCharacterFromLabel(toLabel)],
         trieNode := node, score := score, deltaScore := score - s.score)
    else
      var q := ScoreIncompleteWord(res.model, s.modelState, s.incompleteWord);
      KenLMState(q.prob, q.prob, q.prob - s.score, [], Some(res.trie.root), q.out)
  }

  /**
   * The state ExpandStateEnd leaves: a pending word first advances the model's
   * context (its probability is dropped), then the end of sentence is scored.
   */
  function ExpandEnd(res: Resources, s: KenLMState): (r: KenLMState)
    ensures r.incompleteWord == []
    ensures r.score == r.languageModelScore == res.model.fullScore(r.modelState, res.model.endSentence).prob
    ensures r.deltaScore == r.score - s.score
    ensures |s.incompleteWord| == 0 ==> r.modelState == s.modelState && r.trieNode == s.trieNode
    ensures |s.incompleteWord| > 0 ==>
              && r.modelState == res.model.fullScore(s.modelState, res.model.index(s.incompleteWord)).out
              && r.trieNode == Some(res.trie.root)
  {
    var flushed :=
      if |s.incompleteWord| > 0 then
        s.(incompleteWord := [], trieNode := Some(res.trie.root),
           modelState := ScoreIncompleteWord(res.model, s.modelState, s.incompleteWord).out)
      else s;
    var eos := res.model.fullScore(flushed.modelState, res.model.endSentence).prob;
    flushed.(languageModelScore := eos, score := eos, deltaScore := eos - s.score)
  }

  /** The cached delta, combined with the network's score of the step. */
  function GetStateExpansionScore(s: KenLMState, previousScore: real): (r: real)
    ensures r - previousScore == s.deltaScore
  {
    s.deltaScore + previousScore
  }

  function GetStateEndExpansionScore(s: KenLMState): (r: real)
    ensures r == s.deltaScore
  {
    s.deltaScore
  }

  /** On a repeat or a blank the scorer adds to the network's score what the default scorer adds: nothing. */
  lemma RepeatOrBlankScoresLikeDefault(res: Resources, s: KenLMState, fromLabel: int, toLabel: int, p: real)
    requires ValidTrie(res.trie) && IsCursor(res.trie, s.trieNode) && ValidLabel(toLabel)
    requires IsRepeatOrBlank(fromLabel, toLabel)
    ensures var t := Expand(res, s, fromLabel, toLabel);
            GetStateExpansionScore(t, p) == BaseScoring.GetStateExpansionScore(t, p)
  {
  }

  /** The state after expanding along `labels`, the beam's last label being `prevLabel`. */
  function Run(res: Resources, s: KenLMState, prevLabel: int, labels: seq<int>): (r: KenLMState)
    requires ValidTrie(res.trie) && IsCursor(res.trie, s.trieNode) && ValidLabels(labels)
    ensures IsCursor(res.trie, r.trieNode)
    decreases |labels|
  {
    if labels == [] then s
    else Run(res, Expand(res, s, prevLabel, labels[0]), labels[0], labels[1..])
  }

  /** What GetStateExpansionScore adds up to along `labels`, given the network's score of each step. */
  function ExpansionTotal(res: Resources, s: KenLMState, prevLabel: int, labels: seq<int>, network: seq<real>): real
    requires ValidTrie(res.trie) && IsCursor(res.trie, s.trieNode) && ValidLabels(labels)
    requires |network| == |labels|
    decreases |labels|
  {
    if labels == [] then 0.0
    else
      var t := Expand(res, s, prevLabel, labels[0]);
      GetStateExpansionScore(t, network[0]) + ExpansionTotal(res, t, labels[0], labels[1..], network[1..])
  }

  /**
   * The cached deltas never go stale: along any path they add up to the change
   * of `score` from the first state to the last.
   */
  lemma {:induction false} ExpansionScoresTelescope(res: Resources, s: KenLMState, prevLabel: int,
                                                    labels: seq<int>, network: seq<real>)
    requires ValidTrie(res.trie) && IsCursor(res.trie, s.trieNode) && ValidLabels(labels)
    requires |network| == |labels|
    ensures ExpansionTotal(res, s, prevLabel, labels, network)
            == BaseScoring.Sum(network) + (Run(res, s, prevLabel, labels).score - s.score)
    decreases |labels|
  {
    if labels != [] {
      var t := Expand(res, s, prevLabel, labels[0]);
      ExpansionScoresTelescope(res, t, labels[0], labels[1..], network[1..]);
    }
  }

  /**
   * A whole decoded path, from InitializeState through ExpandStateEnd: because
   * every word boundary replaces the score rather than adding to it, the model
   * contributes to the path only its end-of-sentence score in the final context.
   */
  lemma PathLanguageModelContribution(res: Resources, labels: seq<int>, network: seq<real>, prevLabel: int)
    requires ValidTrie(res.trie) && ValidLabels(labels) && |network| == |labels|
    ensures var last := Run(res, InitialState(res), prevLabel, labels);
            var fin := ExpandEnd(res, last);
            ExpansionTotal(res, InitialState(res), prevLabel, labels, network) + GetStateEndExpansionScore(fin)
            == BaseScoring.Sum(network) + res.model.fullScore(fin.modelState, res.model.endSentence).prob
  {
    ExpansionScoresTelescope(res, InitialState(res), prevLabel, labels, network);
  }

  predicate WordChars(w: string) {
    forall i :: 0 <= i < |w| ==> IsWordChar(w[i])
  }

  /** The labels that spell a word. */
  function WordLabels(w: string): (labels: seq<int>)
    requires WordChars(w)
    ensures |labels| == |w| && ChildLabels(labels)
    decreases |w|
  {
    if w == [] then [] else WordLabels(w[..|w| - 1]) + [LabelFromCharacter(w[|w| - 1])]
  }

  /**
   * The cursor invariant: the pending word consists of letters and the cursor
   * is the trie node of that word, absent exactly when the word is no prefix.
   */
  ghost predicate CursorOnWord(trie: Trie, s: KenLMState)
    requires ValidTrie(trie)
  {
    WordChars(s.incompleteWord) && s.trieNode == Descend(trie, WordLabels(s.incompleteWord))
  }

  lemma InitialStateCursorOnWord(res: Resources)
    requires ValidTrie(res.trie)
    ensures CursorOnWord(res.trie, InitialState(res))
  {
  }

  lemma ExpandKeepsCursorOnWord(res: Resources, s: KenLMState, fromLabel: int, toLabel: int)
    requires ValidTrie(res.trie) && ValidLabel(toLabel) && CursorOnWord(res.trie, s)
    ensures CursorOnWord(res.trie, Expand(res, s, fromLabel, toLabel))
  {
    if IsLetterStep(fromLabel, toLabel) {
      // the new character translates back to the label that moved the cursor
      CharacterRoundTrip(toLabel);
      var w' := s.incompleteWord + [GetCharacterFromLabel(toLabel)];
      assert w'[..|w'| - 1] == s.incompleteWord;
    }
  }

  lemma ExpandEndKeepsCursorOnWord(res: Resources, s: KenLMState)
    requires ValidTrie(res.trie) && CursorOnWord(res.trie, s)
    ensures CursorOnWord(res.trie, ExpandEnd(res, s))
  {
  }

  /** KenLMBeamState: the per-beam record the scorer fills in. */
  class KenLMBeamState {
    var score: real
    var languageModelScore: real
    var deltaScore: real
    var incompleteWord: string
    var trieNode: Option<NodeId>
    var modelState: ModelState

    function Value(): KenLMState
      reads this
    {
      KenLMState(score, languageModelScore, deltaScore, incompleteWord, trieNode, modelState)
    }
  }

  class KenLMBeamScorer {
    const model: LanguageModel
    const trie: Trie
    const log10: real -> real

    /** The model and the trie are taken already loaded. */
    constructor (model: LanguageModel, trie: Trie, log10: real -> real)
      requires ValidTrie(trie)
      ensures Valid() && Env() == Resources(model, trie, log10)
    {
      this.model := model;
      this.trie := trie;
      this.log10 := log10;
    }

    ghost predicate Valid() {
      ValidTrie(trie)
    }

    function Env(): Resources {
      Resources(model, trie, log10)
    }

    method InitializeState(root: KenLMBeamState)
      modifies root
      ensures root.Value() == InitialState(Env())
    {
      root.languageModelScore := 0.0;
      root.score := 0.0;
      root.deltaScore := 0.0;
      root.incompleteWord := [];
      root.trieNode := Some(trie.root);
      root.modelState := model.beginSentenceState;
    }

    /** `queries` records the FullScore calls made, in order: one at a separator, none otherwise. */
    method ExpandState(fromState: KenLMBeamState, fromLabel: int, toState: KenLMBeamState, toLabel: int)
      returns (ghost queries: seq<Query>)
      requires Valid() && IsCursor(trie, fromState.trieNode) && ValidLabel(toLabel)
      requires fromState != toState
      modifies toState
      ensures unchanged(fromState)
      ensures toState.Value() == Expand(Env(), fromState.Value(), fromLabel, toLabel)
      ensures queries == if IsWordBoundary(fromLabel, toLabel)
                         then [Query(fromState.modelState, model.index(fromState.incompleteWord))]
                         else []
    {
      queries := [];
      CopyState(fromState, toState);

      if fromLabel == toLabel || IsBlankLabel(toLabel) {
        toState.deltaScore := 0.0;
        return;
      }

      if !IsSpaceLabel(toLabel) {
        toState.incompleteWord := toState.incompleteWord + [GetCharacterFromLabel(toLabel)];
        var trieNode := fromState.trieNode;

        var prefixProb := AbsentPrefixLogProb;
        if trieNode != None {
          trieNode := GetChildAt(trie, trieNode.value, toLabel);
          toState.trieNode := trieNode;

          if trieNode != None {
            prefixProb := GetFrequency(trie, trieNode.value) as real / GetFrequency(trie, trie.root) as real;
            prefixProb := log10(prefixProb);
          }
        }
        toState.score := prefixProb + toState.languageModelScore;
        toState.deltaScore := toState.score - fromState.score;
      } else {
        var scored := ScoreIncompleteWord(model, fromState.modelState, toState.incompleteWord);
        queries := queries + [Query(fromState.modelState, model.index(toState.incompleteWord))];
        toState.modelState := scored.out;
        UpdateWithLMScore(toState, scored.prob);
        // the source calls ResetIncompleteWord() without an argument; the state meant is the child's
        ResetIncompleteWord(toState);
      }
    }

    /**
     * `queries` records the FullScore calls made, in order: the pending word
     * (if any) and then the end of sentence, in the context the word produced.
     */
    method ExpandStateEnd(state: KenLMBeamState) returns (ghost queries: seq<Query>)
      modifies state
      ensures state.Value() == ExpandEnd(Env(), old(state.Value()))
      ensures |old(state.incompleteWord)| == 0 ==>
                queries == [Query(old(state.modelState), model.endSentence)]
      ensures |old(state.incompleteWord)| > 0 ==>
                queries == [Query(old(state.modelState), model.index(old(state.incompleteWord))),
                            Query(ScoreIncompleteWord(model, old(state.modelState), old(state.incompleteWord)).out,
                                  model.endSentence)]
    {
      queries := [];
      if |state.incompleteWord| > 0 {
        var scored := ScoreIncompleteWord(model, state.modelState, state.incompleteWord);
        queries := queries + [Query(state.modelState, model.index(state.incompleteWord))];
        ResetIncompleteWord(state);
        state.modelState := scored.out;
      }
      var fullScoreReturn := model.fullScore(state.modelState, model.endSentence);
      queries := queries + [Query(state.modelState, model.endSentence)];
      UpdateWithLMScore(state, fullScoreReturn.prob);
    }

    method UpdateWithLMScore(state: KenLMBeamState, lmScore: real)
      modifies state
      ensures state.Value() == old(state.Value()).(languageModelScore := lmScore, score := lmScore,
                                                   deltaScore := lmScore - old(state.score))
    {
      var previousScore := state.score;
      state.languageModelScore := lmScore;
      state.score := lmScore;
      state.deltaScore := lmScore - previousScore;
    }

    method ResetIncompleteWord(state: KenLMBeamState)
      modifies state
      ensures state.Value() == old(state.Value()).(incompleteWord := [], trieNode := Some(trie.root))
    {
      state.incompleteWord := [];
      state.trieNode := Some(trie.root);
    }

    method CopyState(from: KenLMBeamState, to: KenLMBeamState)
      modifies to
      ensures to.Value() == old(from.Value())
      ensures from != to ==> unchanged(from)
    {
      to.languageModelScore := from.languageModelScore;
      to.score := from.score;
      to.deltaScore := from.deltaScore;
      to.incompleteWord := from.incompleteWord;
      to.trieNode := from.trieNode;
      to.modelState := from.modelState;
    }
  }
}
