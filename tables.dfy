/**
 * The four digit-to-word tables, the table of languages that selects among
 * them, and the digit translator built on them (UI.py, lines 22-47 and 73-77).
 */
module DigitTables {

  /** The word the translator returns for a digit outside 0..9. */
  const INVALID_DIGIT: string := "Invalid Digit"

  /** The languages offered by the language selector, in their display order. */
  const LANGUAGES: seq<string> := ["English", "Hindi", "Spanish", "Tamil"]

  const ENGLISH_DIGITS: map<int, string> := map[
    0 := "Zero", 1 := "One", 2 := "Two", 3 := "Three", 4 := "Four",
    5 := "Five", 6 := "Six", 7 := "Seven", 8 := "Eight", 9 := "Nine"]

  const HINDI_DIGITS: map<int, string> := map[
    0 := "शून्य", 1 := "एक", 2 := "दो", 3 := "तीन", 4 := "चार",
    5 := "पांच", 6 := "छह", 7 := "सात", 8 := "आठ", 9 := "नौ"]

  const SPANISH_DIGITS: map<int, string> := map[
    0 := "Cero", 1 := "Uno", 2 := "Dos", 3 := "Tres", 4 := "Cuatro",
    5 := "Cinco", 6 := "Seis", 7 := "Siete", 8 := "Ocho", 9 := "Nueve"]

  const TAMIL_DIGITS: map<int, string> := map[
    0 := "பூஜ்ஜியம்", 1 := "ஒன்று", 2 := "இரண்டு", 3 := "மூன்று", 4 := "நான்கு",
    5 := "ஐந்து", 6 := "ஆறு", 7 := "ஏழு", 8 := "எட்டு", 9 := "ஒன்பது"]

  /** Language name to its digit table. */
  const LANGUAGE_MAPPINGS: map<string, map<int, string>> := map[
    "English" := ENGLISH_DIGITS,
    "Hindi" := HINDI_DIGITS,
    "Spanish" := SPANISH_DIGITS,
    "Tamil" := TAMIL_DIGITS]

  predicate IsDigit(d: int) {
    0 <= d <= 9
  }

  /**
   * A digit table is complete when its keys are exactly 0..9, every word is
   * non-empty and differs from the sentinel, and no two digits share a word.
   */
  ghost predicate CompleteTable(t: map<int, string>) {
    && (forall d :: d in t <==> IsDigit(d))
    && (forall d :: d in t ==> t[d] != [] && t[d] != INVALID_DIGIT)
    && (forall d, e :: d in t && e in t && d != e ==> t[d] != t[e])
  }

  /**
   * What translate_digit produces: a word (possibly the sentinel), or the
   * KeyError the language lookup raises for a language without a table.
   */
  datatype Translation = Word(text: string) | KeyError(language: string)

  /**
   * translate_digit: the range check comes first, so an out-of-range digit
   * yields the sentinel whatever the language; an in-range digit is looked up
   * in the language's table, which raises KeyError for an unknown language.
   */
  function TranslateDigit(digit: int, language: string): (r: Translation)
    ensures !IsDigit(digit) ==> r == Word(INVALID_DIGIT)
    ensures IsDigit(digit) && language in LANGUAGE_MAPPINGS ==>
      r.Word? && digit in LANGUAGE_MAPPINGS[language] && r.text == LANGUAGE_MAPPINGS[language][digit]
    ensures IsDigit(digit) && language !in LANGUAGE_MAPPINGS ==> r == KeyError(language)
  {
    if 0 <= digit <= 9 then
      if language in LANGUAGE_MAPPINGS && digit in LANGUAGE_MAPPINGS[language] then
        Word(LANGUAGE_MAPPINGS[language][digit])
      else
        KeyError(language)
    else
      Word(INVALID_DIGIT)
  }

  lemma EnglishComplete() ensures CompleteTable(ENGLISH_DIGITS) { }
  lemma HindiComplete() ensures CompleteTable(HINDI_DIGITS) { }
  lemma SpanishComplete() ensures CompleteTable(SPANISH_DIGITS) { }
  lemma TamilComplete() ensures CompleteTable(TAMIL_DIGITS) { }

  /** The language table has exactly the selector's four languages, each with a complete table. */
  lemma LanguageMappingsComplete()
    ensures LANGUAGE_MAPPINGS.Keys == set l | l in LANGUAGES
    ensures forall l :: l in LANGUAGE_MAPPINGS ==> CompleteTable(LANGUAGE_MAPPINGS[l])
  {
    EnglishComplete(); HindiComplete(); SpanishComplete(); TamilComplete();
  }

  /**
   * For a selectable language the sentinel is returned exactly when the digit
   * is out of range: no table word can be mistaken for it.
   */
  lemma SentinelIffOutOfRange(digit: int, language: string)
    requires language in LANGUAGE_MAPPINGS
    ensures TranslateDigit(digit, language) == Word(INVALID_DIGIT) <==> !IsDigit(digit)
  {
    LanguageMappingsComplete();
  }

  /** A selectable language never raises KeyError, whatever the digit. */
  lemma SelectableNeverRaises(digit: int, language: string)
    requires language in LANGUAGE_MAPPINGS
    ensures TranslateDigit(digit, language).Word?
    ensures IsDigit(digit) ==> TranslateDigit(digit, language).text != []
  {
    LanguageMappingsComplete();
  }

  /** Translation loses nothing: distinct digits get distinct words in every language. */
  lemma TranslateInjective(d: int, e: int, language: string)
    requires language in LANGUAGE_MAPPINGS && IsDigit(d) && IsDigit(e) && d != e
    ensures TranslateDigit(d, language) != TranslateDigit(e, language)
  {
    LanguageMappingsComplete();
  }
}
