/**
 * The language-name to speech-service code selection at the head of speak
 * (UI.py, lines 81-90).
 */
module Speech {
  import DigitTables

  /** The code used for any language the chain does not name. */
  const DEFAULT_CODE: string := "en"

  /** The two-letter language code passed to the text-to-speech service. */
  function SpeechCode(language: string): (code: string)
    ensures |code| == 2
    ensures code in {"en", "hi", "es", "ta"}
    ensures code == DEFAULT_CODE <==> language !in {"Hindi", "Spanish", "Tamil"}
  {
    if language == "English" then "en"
    else if language == "Hindi" then "hi"
    else if language == "Spanish" then "es"
    else if language == "Tamil" then "ta"
    else DEFAULT_CODE
  }

  /**
   * The chain names exactly the languages that have digit tables: each of
   * them gets its own code, and every other name falls back to the default.
   */
  lemma CodesMatchLanguages(language: string, other: string)
    ensures language !in DigitTables.LANGUAGE_MAPPINGS ==> SpeechCode(language) == DEFAULT_CODE
    ensures language in DigitTables.LANGUAGE_MAPPINGS && other in DigitTables.LANGUAGE_MAPPINGS && language != other
      ==> SpeechCode(language) != SpeechCode(other)
  {
    DigitTables.LanguageMappingsComplete();
  }

  /** The code for each selectable language, as the chain assigns it. */
  lemma SelectableCodes()
    ensures SpeechCode("English") == "en" && SpeechCode("Hindi") == "hi"
    ensures SpeechCode("Spanish") == "es" && SpeechCode("Tamil") == "ta"
  {
  }
}
