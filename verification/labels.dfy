/**
 * LabelToCharacterTranslator: the fixed 29-label alphabet of the scorers.
 * Labels 0..25 are the letters 'a'..'z', 26 is the apostrophe, 27 the word
 * separator (a space) and 28 the CTC blank.
 */
module Labels {
  const NumLabels: int := 29
  const ApostropheLabel: int := 26
  const SpaceLabel: int := 27
  const BlankLabel: int := 28

  /** The labels a decoder over this alphabet emits. */
  predicate ValidLabel(lbl: int) {
    0 <= lbl < NumLabels
  }

  predicate ValidLabels(labels: seq<int>) {
    forall i :: 0 <= i < |labels| ==> ValidLabel(labels[i])
  }

  predicate IsBlankLabel(lbl: int) {
    lbl == BlankLabel
  }

  predicate IsSpaceLabel(lbl: int) {
    lbl == SpaceLabel
  }

  /** Letters and the apostrophe: the labels that extend a word. */
  predicate IsLetterLabel(lbl: int) {
    0 <= lbl <= ApostropheLabel
  }

  /**
   * The character of a label. The letter case is `lbl + 'a'` converted to
   * an 8-bit `char`, so for labels outside the alphabet the result wraps
   * modulo 256.
   */
  function GetCharacterFromLabel(lbl: int): (c: char)
    ensures lbl == ApostropheLabel ==> c == '\''
    ensures lbl == SpaceLabel ==> c == ' '
    ensures 0 <= lbl < ApostropheLabel ==> 'a' <= c <= 'z' && c as int - 'a' as int == lbl
    ensures c as int < 256
  {
    if lbl == ApostropheLabel then '\''
    else if lbl == SpaceLabel then ' '
    else ((lbl + 'a' as int) % 256) as char
  }

  /** Characters that a word accumulates between separators. */
  predicate IsWordChar(c: char) {
    'a' <= c <= 'z' || c == '\''
  }

  /** Characters that some label of the alphabet other than the blank stands for. */
  predicate IsLabelChar(c: char) {
    IsWordChar(c) || c == ' '
  }

  /** The inverse of GetCharacterFromLabel on labels 0..27. */
  function LabelFromCharacter(c: char): (lbl: int)
    requires IsLabelChar(c)
    ensures 0 <= lbl <= SpaceLabel
    ensures GetCharacterFromLabel(lbl) == c
    ensures IsWordChar(c) <==> IsLetterLabel(lbl)
  {
    if c == '\'' then ApostropheLabel
    else if c == ' ' then SpaceLabel
    else c as int - 'a' as int
  }

  lemma CharacterRoundTrip(lbl: int)
    requires 0 <= lbl <= SpaceLabel
    ensures IsLabelChar(GetCharacterFromLabel(lbl))
    ensures IsWordChar(GetCharacterFromLabel(lbl)) <==> IsLetterLabel(lbl)
    ensures LabelFromCharacter(GetCharacterFromLabel(lbl)) == lbl
  {
  }

  /** Distinct non-blank labels are translated to distinct characters. */
  lemma GetCharacterFromLabelInjective(a: int, b: int)
    requires 0 <= a <= SpaceLabel && 0 <= b <= SpaceLabel
    requires GetCharacterFromLabel(a) == GetCharacterFromLabel(b)
    ensures a == b
  {
    CharacterRoundTrip(a);
    CharacterRoundTrip(b);
  }

  /** Every label of the alphabet is exactly one of blank, separator or letter. */
  lemma LabelClassification(lbl: int)
    requires ValidLabel(lbl)
    ensures IsBlankLabel(lbl) <==> lbl == 28
    ensures IsSpaceLabel(lbl) <==> lbl == 27
    ensures (if IsBlankLabel(lbl) then 1 else 0) + (if IsSpaceLabel(lbl) then 1 else 0)
          + (if IsLetterLabel(lbl) then 1 else 0) == 1
  {
  }

  /** How ExpandState reads a transition between two labels. */
  predicate IsRepeatOrBlank(fromLabel: int, toLabel: int) {
    fromLabel == toLabel || IsBlankLabel(toLabel)
  }

  predicate IsWordBoundary(fromLabel: int, toLabel: int) {
    !IsRepeatOrBlank(fromLabel, toLabel) && IsSpaceLabel(toLabel)
  }

  predicate IsLetterStep(fromLabel: int, toLabel: int) {
    !IsRepeatOrBlank(fromLabel, toLabel) && !IsSpaceLabel(toLabel)
  }

  /** A transition to a label of the alphabet that extends a word carries a letter label. */
  lemma LetterStepCarriesLetter(fromLabel: int, toLabel: int)
    requires ValidLabel(toLabel) && IsLetterStep(fromLabel, toLabel)
    ensures IsLetterLabel(toLabel) && IsWordChar(GetCharacterFromLabel(toLabel))
  {
  }
}
