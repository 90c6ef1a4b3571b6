/**
 * The interface of the KenLM n-gram model the language-model scorer consults.
 * The model itself is foreign: its operations are given as function values.
 */
module LanguageModels {
  /** KenLM's per-sentence context (lm::ngram::State), copied by value. */
  type ModelState(0)

  /** A vocabulary index (lm::WordIndex). */
  type WordIndex = nat

  /** What FullScore yields: the log10 probability of the token and the advanced context. */
  datatype FullScoreResult = FullScoreResult(prob: real, out: ModelState)

  datatype LanguageModel = LanguageModel(
    fullScore: (ModelState, WordIndex) -> FullScoreResult,
    index: string -> WordIndex,
    endSentence: WordIndex,
    beginSentenceState: ModelState)

  /** One FullScore call, as recorded by the scorer: the context and the token asked about. */
  datatype Query = Query(context: ModelState, token: WordIndex)
}
