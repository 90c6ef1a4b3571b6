# CTC beam scorers, modelled in Dafny

This project models the beam scorers of TensorFlow's CTC beam-search decoder
(`tensorflow/core/util/ctc/ctc_beam_scorer.h`). A scorer keeps a small record
per beam and is driven by the decoder, one label transition at a time:
`InitializeState` fills the root beam's record, `ExpandState` writes a child's
record from its parent's and the transition `from_label -> to_label`,
`ExpandStateEnd` applies sentence-final scoring, and two accessors hand the
cached score to the decoder.

- `BaseScoring` — `BaseBeamScorer`, the default: no per-beam state, the
  network's scores pass through unchanged.
- `Labels` — `LabelToCharacterTranslator`, the 29-label alphabet: 0..25 are
  'a'..'z', 26 the apostrophe, 27 the word separator, 28 the CTC blank.
- `Tries` — the vocabulary trie the scorers walk, as an immutable map from node
  ids to a frequency and 27 child slots; a cursor is an `Option<NodeId>`.
- `LanguageModels` — the interface of the KenLM n-gram model (`FullScore`,
  the vocabulary's `Index` and `EndSentence`, `BeginSentenceState`), given as
  function values.
- `PrefixScoring` — `PrefixScorer`: charges a penalty of 1.0 the first time a
  word's letters leave the trie, at most once per word.
- `KenLMScoring` — `KenLMBeamScorer`: while a word is spelt, the score is the
  log10 share of the corpus starting with the word so far (or -10 when the
  word is no trie prefix) plus the last full model score; at a separator the
  model's score of the word replaces it; at the end, a pending word advances
  the model's context and the end of sentence is scored.
- `Scenarios` — both scorers on a two-word vocabulary ("cat" and "car").

The per-beam records (`PrefixBeamState`, `KenLMBeamState`) are classes whose
fields the scorer methods assign one after another, as the C++ does through
its `to_state` pointer. Each method's postcondition ties the record's new
value to a function of the old one (`PrefixScoring.Expand`,
`KenLMScoring.Expand`, `KenLMScoring.ExpandEnd`), and the properties of those
functions are proved as their own postconditions and as lemmas, several over
whole label paths (`Run`). The KenLM methods return, as a ghost out-parameter,
the sequence of `FullScore` calls they make, so that their postconditions can
say which model calls happen and in which order.

Consequences the proofs make explicit:
- `KenLMScoring.ExpansionScoresTelescope`: the cached `delta_score` is never
  stale; along any path the expansion scores add up to the network's scores
  plus the change of `score` from the first to the last state.
- `KenLMScoring.PathLanguageModelContribution`: because each word boundary
  *replaces* `score` with the model's score of that one word, the model's total
  contribution to a finished path is only the end-of-sentence score in the
  final context; earlier word scores cancel out.
- The separator scores the pending word with the model even when it is empty
  (two separators with a blank between them); `ExpandStateEnd` checks for an
  empty word but `ExpandState` does not.
- `PrefixScorer`'s accessors return the accumulated penalty and ignore the
  network's score they are given (`PrefixScoring.ScoresIgnorePreviousScore`).
  The header's own comment for these accessors says the returned score is
  combined with the input score; the model follows the code.

## Model

| member | source | states |
|---|---|---|
| `BaseScoring.InitializeState` | tensorflow/core/util/ctc/ctc_beam_scorer.h:47 | the default scorer leaves the root state as allocated |
| `BaseScoring.ExpandState` | tensorflow/core/util/ctc/ctc_beam_scorer.h:51-52 | the default scorer leaves the child's state as allocated, not even copied from the parent |
| `BaseScoring.ExpandStateEnd` | tensorflow/core/util/ctc/ctc_beam_scorer.h:56 | the default scorer does no sentence-final scoring |
| `BaseScoring.GetStateExpansionScore` | tensorflow/core/util/ctc/ctc_beam_scorer.h:64-67 | the default expansion score is the network's score of the step, unchanged |
| `BaseScoring.GetStateEndExpansionScore` | tensorflow/core/util/ctc/ctc_beam_scorer.h:73-75 | the default end score is log-probability 0 |
| `BaseScoring.DefaultScoringIsPlainCtc` | tensorflow/core/util/ctc/ctc_beam_scorer.h:57-75 | with the default scorer a path's accumulated score is exactly the sum of the network's scores: plain CTC decoding |
| `Labels.GetCharacterFromLabel` | tensorflow/core/util/ctc/ctc_beam_scorer.h:90-98 | 26 is the apostrophe, 27 a space, 0..25 are 'a'..'z' in order; the result is always an 8-bit character |
| `Labels.LabelFromCharacter` | tensorflow/core/util/ctc/ctc_beam_scorer.h:90-98 | inverse of the translation on the 28 non-blank labels; word characters come from letter labels and only from them |
| `Labels.CharacterRoundTrip` | tensorflow/core/util/ctc/ctc_beam_scorer.h:90-98 | translating a non-blank label to its character and back gives the label |
| `Labels.GetCharacterFromLabelInjective` | tensorflow/core/util/ctc/ctc_beam_scorer.h:90-98 | distinct labels in 0..27 give distinct characters |
| `Labels.LabelClassification` | tensorflow/core/util/ctc/ctc_beam_scorer.h:82-88 | blank iff 28, separator iff 27, and every label of 0..28 is exactly one of blank, separator, letter |
| `Labels.LetterStepCarriesLetter` | tensorflow/core/util/ctc/ctc_beam_scorer.h:274-289 | a transition that is neither repeat, blank nor separator carries a label in 0..26, so trie child lookups stay within the 27 slots |
| `Tries.Step` | tensorflow/core/util/ctc/ctc_beam_scorer.h:148-150 | a present cursor moves to its child for the label; an absent one stays absent |
| `Tries.Descend` | tensorflow/core/util/ctc/ctc_beam_scorer.h:142-150 | the node reached from the root along a label sequence is a node of the trie or absent |
| `Tries.DescendAbsentStaysAbsent` | tensorflow/core/util/ctc/ctc_beam_scorer.h:283-287 | once a prefix is missing from the trie, every extension of it is missing too |
| `PrefixScoring.Expand` | tensorflow/core/util/ctc/ctc_beam_scorer.h:270-294 | repeat or blank: state unchanged; separator: prob unchanged, cursor at the root; letter: absent cursor unchanged, present cursor moves to the child; prob falls by 1.0 or not at all, and by 1.0 exactly when a present cursor has no child for the letter |
| `PrefixScoring.GetStateExpansionScore` | tensorflow/core/util/ctc/ctc_beam_scorer.h:306-309 | returns the accumulated penalty |
| `PrefixScoring.GetStateEndExpansionScore` | tensorflow/core/util/ctc/ctc_beam_scorer.h:315-317 | returns the accumulated penalty |
| `PrefixScoring.ScoresIgnorePreviousScore` | tensorflow/core/util/ctc/ctc_beam_scorer.h:306-317 | both accessors give the same value whatever network score they are handed |
| `PrefixScoring.Run` | tensorflow/core/util/ctc/ctc_beam_scorer.h:270-294 | along any label path the cursor stays a trie node or absent and prob never rises |
| `PrefixScoring.PenaltyOncePerWord` | tensorflow/core/util/ctc/ctc_beam_scorer.h:283-293 | within one word the penalty is charged at most once and leaves the cursor absent; a beam already out of the trie does not change |
| `PrefixScoring.PenaltyAtMostOncePerWord` | tensorflow/core/util/ctc/ctc_beam_scorer.h:278-293 | along any path the total penalty is at most one per separator plus one for the word in progress |
| `PrefixScoring.PrefixScorer.InitializeState` | tensorflow/core/util/ctc/ctc_beam_scorer.h:263-266 | the root beam has prob 0 and its cursor at the trie root |
| `PrefixScoring.PrefixScorer.ExpandState` | tensorflow/core/util/ctc/ctc_beam_scorer.h:270-294 | the child's record becomes `Expand` of the parent's; the parent is not modified |
| `PrefixScoring.PrefixScorer.ExpandStateEnd` | tensorflow/core/util/ctc/ctc_beam_scorer.h:298 | the record is left unchanged |
| `PrefixScoring.PrefixScorer.CopyState` | tensorflow/core/util/ctc/ctc_beam_scorer.h:323-326 | the target's record equals the source's |
| `KenLMScoring.ScoreIncompleteWord` | tensorflow/core/util/ctc/ctc_beam_scorer.h:227-235 | the word is looked up in the model's vocabulary and scored as the next token after the given context, giving its probability and the advanced context |
| `KenLMScoring.Expand` | tensorflow/core/util/ctc/ctc_beam_scorer.h:133-173 | delta always equals new score minus old score; repeat or blank: every field kept but delta 0; letter: word grows by the letter's character, LM score and context kept, cursor advanced (absent stays absent), score is the prefix log-probability (-10 when the cursor is absent) plus the LM score; separator: score and LM score both become the model's score of the word in the parent's context, context advanced, word emptied, cursor at the root |
| `KenLMScoring.ExpandEnd` | tensorflow/core/util/ctc/ctc_beam_scorer.h:177-189 | word emptied; score and LM score both the end-of-sentence probability in the final context; delta is that minus the old score; with a pending word the final context is the word's output context (its probability dropped) and the cursor is reset, otherwise context and cursor are kept |
| `KenLMScoring.GetStateExpansionScore` | tensorflow/core/util/ctc/ctc_beam_scorer.h:197-200 | adds the cached delta to the network's score of the step |
| `KenLMScoring.GetStateEndExpansionScore` | tensorflow/core/util/ctc/ctc_beam_scorer.h:206-208 | returns the cached delta |
| `KenLMScoring.RepeatOrBlankScoresLikeDefault` | tensorflow/core/util/ctc/ctc_beam_scorer.h:137-140 | after a repeat or blank the expansion score is the network's score, as with the default scorer |
| `KenLMScoring.Run` | tensorflow/core/util/ctc/ctc_beam_scorer.h:133-173 | along any label path the cursor stays a trie node or absent |
| `KenLMScoring.ExpansionScoresTelescope` | tensorflow/core/util/ctc/ctc_beam_scorer.h:160-170 | along any path the expansion scores sum to the network's scores plus last score minus first score: the cached deltas are never stale |
| `KenLMScoring.PathLanguageModelContribution` | tensorflow/core/util/ctc/ctc_beam_scorer.h:177-189 | from the initial state to the end, the scorer adds to a path's network scores exactly the end-of-sentence probability in the final context |
| `KenLMScoring.InitialStateCursorOnWord` | tensorflow/core/util/ctc/ctc_beam_scorer.h:122-129 | the initial record satisfies the cursor invariant: empty word, cursor at the root |
| `KenLMScoring.ExpandKeepsCursorOnWord` | tensorflow/core/util/ctc/ctc_beam_scorer.h:142-171 | expansion keeps the invariant that the pending word is made of letters and the cursor is that word's trie node, absent exactly when the word is no trie prefix |
| `KenLMScoring.ExpandEndKeepsCursorOnWord` | tensorflow/core/util/ctc/ctc_beam_scorer.h:180-184 | the end step keeps the same cursor invariant |
| `KenLMScoring.KenLMBeamScorer.InitializeState` | tensorflow/core/util/ctc/ctc_beam_scorer.h:122-129 | scores 0, empty word, cursor at the root, context the model's begin-of-sentence state |
| `KenLMScoring.KenLMBeamScorer.ExpandState` | tensorflow/core/util/ctc/ctc_beam_scorer.h:133-173 | the child's record becomes `Expand` of the parent's, the parent is not modified, and the model is called once, with the parent's context and the word's index, exactly at a separator |
| `KenLMScoring.KenLMBeamScorer.ExpandStateEnd` | tensorflow/core/util/ctc/ctc_beam_scorer.h:177-189 | the record becomes `ExpandEnd` of the old one; with an empty word the model is called once (end of sentence), otherwise twice, the word first and then the end of sentence in the context the word produced |
| `KenLMScoring.KenLMBeamScorer.UpdateWithLMScore` | tensorflow/core/util/ctc/ctc_beam_scorer.h:215-220 | score and LM score become the given score, delta is the change of score, nothing else changes |
| `KenLMScoring.KenLMBeamScorer.ResetIncompleteWord` | tensorflow/core/util/ctc/ctc_beam_scorer.h:222-225 | word emptied and cursor at the root, nothing else changes |
| `KenLMScoring.KenLMBeamScorer.CopyState` | tensorflow/core/util/ctc/ctc_beam_scorer.h:237-244 | the target's record equals the source's, all six fields |
| `Scenarios.KenLMScoresCatCar` | tensorflow/core/util/ctc/ctc_beam_scorer.h:142-189 | on a trie of "cat" (5) and "car" (3): "ca" keeps the cursor and scores log10(8/8), "cat" scores log10(5/8), "cx" leaves the trie at the "x" and scores -10, and ending on "cat" advances the model's context by "cat" |
| `Scenarios.PrefixScoresCatCar` | tensorflow/core/util/ctc/ctc_beam_scorer.h:274-293 | on the same trie, "cx", blank, "x" costs one penalty and "cx", separator, "cx" costs two |

## Left out

- Constructors and destructors (lines 105-119, 251-260): opening the files, deserializing the trie and loading the KenLM model are I/O and resource ownership; the scorer classes here take an already loaded trie and model.
- The KenLM library (`lm/model.hh`): `FullScore`, `GetVocabulary().Index`, `EndSentence` and `BeginSentenceState` are foreign; they are function values of `LanguageModels.LanguageModel`, about which nothing is assumed, and `lm::ngram::State` is an abstract type.
- The trie's implementation (`TrieNode<27>`, `GetChildAt`, `GetFrequency`, its file format) is defined in `ctc_beam_entry.h` and the trie module, which are not part of this model; the trie is an immutable map whose root frequency is assumed positive, as the division at line 153-154 needs.
- Floating point: scores are reals, `float` rounding is not modelled, and `std::log10` is a function value `log10` of the scorer about which nothing is assumed.
- `KenLMScoring.Expand`: states the -10 fallback for an absent cursor and `log10` of the frequency ratio for a present one, but not that the estimate is -10 only when the cursor is absent, since a present node whose ratio is 1e-10 gives -10 as well.
- `KenLMScoring.KenLMBeamScorer.ExpandState`: requires the parent and child records to be distinct objects; line 164 reads `from_state.score` after line 163 has written `to_state->score`, so on one record passed as both the delta would be 0. The decoder always writes into a fresh child.
- `Labels.GetCharacterFromLabel`: models the conversion of `label + 'a'` to an 8-bit `char` modulo 256, but not the `int` overflow of the addition for labels near the integer limits.
- The `const`-ness of the C++ member functions (lines 215 and 222 are non-const helpers called from const members) is not modelled.
- The beam-search decoder that calls these hooks is not part of this model; `Run`, `ExpansionTotal` and `BaseScoring.PathScore` only fold the hooks along one label path.
