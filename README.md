# Digit recognition and translation demo — verified model

The system is a one-page drawing demo: the user draws a digit, presses
**Predict**, a pretrained classifier names the digit, the digit is translated
into one of four languages (English, Hindi, Spanish, Tamil) by table lookup,
and the word is spoken by a text-to-speech service. This project models the
deterministic logic of that pipeline in Dafny and proves its properties:

- `DigitTables` (`tables.dfy`): the four digit-to-word tables, the language
  table over them, and `translate_digit` with its range check, its
  `"Invalid Digit"` sentinel and the `KeyError` its lookup raises for a
  language without a table.
- `Speech` (`speech.dfy`): the chain in `speak` that maps a language name to
  the two-letter code the speech service takes, with `en` as the fallback.
- `Preprocessing` (`preprocess.dfy`): the binary threshold (127, 255) and the
  division by 255 of `preprocess_image`, over an image given row by row.
- `PredictHandler` (`handler.dfy`): the Predict handler as a function from the
  canvas data, the selected language, the resize step and the classifier to
  an outcome — canvas unavailable, empty canvas, a prediction with its word
  and speech request, or a failure the catch-all reports — plus the lines it
  writes.
- `Wrappers` (`wrappers.dfy`): the `Option` type for canvas data that may be
  absent.

The resize step and the classifier are function parameters, so every
property about the handler holds for every classifier. The classifier's score
vector may have any length: the translator's defensive sentinel is reachable
only when it has more than ten entries (`SentinelNeedsLongScores`), and
`PredictNeverInvalid` proves that ten scores and a selectable language always
give a table word.

`translate_digit` checks only the digit's range and then indexes
`language_mappings`, so an in-range digit with an unknown language raises
`KeyError` (UI.py:73-77); the model returns `KeyError(language)` there and the
handler turns it into `Failed`, as the catch-all at UI.py:118-119 does.

## Model

| member | source | states |
|---|---|---|
| `DigitTables.TranslateDigit` | UI.py:73-77 | an out-of-range digit gives "Invalid Digit" for every language; an in-range digit gives the selected table's word; an in-range digit with an unknown language gives KeyError |
| `DigitTables.EnglishComplete` | UI.py:22-25 | the English table has exactly keys 0..9, non-empty distinct words, none equal to the sentinel |
| `DigitTables.HindiComplete` | UI.py:27-30 | the same for the Hindi table |
| `DigitTables.SpanishComplete` | UI.py:32-35 | the same for the Spanish table |
| `DigitTables.TamilComplete` | UI.py:37-40 | the same for the Tamil table |
| `DigitTables.LanguageMappingsComplete` | UI.py:42-47 | the language table has exactly the four selector languages, each mapped to a complete table |
| `DigitTables.SentinelIffOutOfRange` | UI.py:73-77 | for a selectable language the result is the sentinel if and only if the digit is outside 0..9 |
| `DigitTables.SelectableNeverRaises` | UI.py:73-75 | a selectable language never raises KeyError, and an in-range digit gets a non-empty word |
| `DigitTables.TranslateInjective` | UI.py:73-75 | distinct in-range digits get distinct words in every selectable language |
| `Speech.SpeechCode` | UI.py:81-90 | the code is one of en, hi, es, ta, and it is the default en exactly when the name is not Hindi, Spanish or Tamil |
| `Speech.CodesMatchLanguages` | UI.py:81-90 | a name without a digit table gets the default code; distinct selectable languages get distinct codes |
| `Speech.SelectableCodes` | UI.py:81-88 | English gives en, Hindi hi, Spanish es, Tamil ta |
| `Preprocessing.Threshold` | UI.py:68 | the pixel becomes 0 or 255, and 255 exactly when it is above 127 |
| `Preprocessing.BinarizeRow` | UI.py:68 | a thresholded row keeps its length and thresholds every pixel |
| `Preprocessing.Binarize` | UI.py:68 | a thresholded image keeps its shape and thresholds every pixel |
| `Preprocessing.Scale` | UI.py:69 | scaling keeps the shape, and every value times 255 gives back the pixel |
| `Preprocessing.Preprocess` | UI.py:68-69 | thresholding then scaling keeps the image's shape |
| `Preprocessing.BinarizeRowIdempotent` | UI.py:68 | thresholding a row twice equals thresholding it once |
| `Preprocessing.BinarizeIdempotent` | UI.py:68 | thresholding an image twice equals thresholding it once |
| `Preprocessing.PreprocessBinary` | UI.py:68-69 | every preprocessed value is exactly 0 or 1, and 1 exactly where the pixel was above 127; a 28x28 image gives a 28x28 tensor |
| `Preprocessing.ScaleInUnitRange` | UI.py:69 | scaling any 8-bit image gives values in [0, 1] |
| `PredictHandler.AnyNonZero` | UI.py:105 | true exactly when some value of the canvas buffer is non-zero |
| `PredictHandler.ArgMax` | UI.py:108 | the index is in range, its score is a maximum, and every earlier score is strictly smaller (first maximum) |
| `PredictHandler.ArgMaxIsFirstMaximum` | UI.py:108 | any index with the first-maximum property is the one ArgMax returns |
| `PredictHandler.HandlePredict` | UI.py:101-119 | absent data gives CanvasUnavailable and only then; an all-zero canvas gives EmptyCanvas and only then; a non-empty canvas fails with EmptyScores exactly when the classifier returns no scores, and with UnknownLanguage(language) exactly when the arg-max is in 0..9 and the language has no table; a prediction's digit is the first-maximum index of the classifier's scores on the preprocessed image, and it carries the selected language, the translation of its digit (the table word in 0..9, "Invalid Digit" above 9), and a speech request for that word with the language's code |
| `PredictHandler.GuardsSkipPipeline` | UI.py:101-117 | for absent or all-zero canvas data the outcome does not depend on language, resize or classifier, is no prediction, and writes the matching guidance message |
| `PredictHandler.PredictNeverInvalid` | UI.py:106-112 | ten scores and a selectable language give a prediction whose digit is the first maximum, lies in 0..9, and whose word is the table word, never the sentinel; the two lines written are "Predicted Digit: " with that digit and "Translation (language): " with that word |
| `PredictHandler.SentinelNeedsLongScores` | UI.py:74-77 | for a selectable language a prediction whose word is "Invalid Digit" needs more than ten scores |
| `PredictHandler.LanguageChangesOnlyTranslation` | UI.py:106-111 | two selectable languages give the same predicted digit for the same drawing |
| `PredictHandler.DecimalString` | UI.py:110 | the printed number is a non-empty run of decimal digits with no leading zero, a single character below 10 |
| `PredictHandler.DecimalRoundTrip` | UI.py:110 | reading the printed digit back gives the digit |
| `PredictHandler.Messages` | UI.py:110-119 | the guidance outcomes write exactly their one message; a prediction writes "Predicted Digit: " with its decimal digit and "Translation (language): " with its word; a failure writes one line starting "An error occurred: " |

## Left out

- Model loading (UI.py:10-20): a file load from a fixed path, cached for the session, that stops the app on failure; it is I/O and is not modelled.
- The Streamlit page: title, selector, canvas widget, button and the writes themselves; the model returns the lines a press would write instead of writing them.
- Colour-to-gray conversion and the area-averaging resize (UI.py:66-67): library image operations on floating point, given to the handler as an arbitrary function to 8-bit single-channel images.
- The batch and channel dimensions added at UI.py:70: a shape wrapper; the tensor is modelled as its 28x28 grid.
- The classifier (UI.py:107): an arbitrary function from tensor to score vector; its scores are exact reals, so float32 rounding and numpy's treatment of NaN as the maximum are not modelled.
- Speech synthesis and playback (UI.py:92-98): the network call, the temporary file, playback and its removal; the model records the request (text, code, slow = false) that would be sent. A speech failure is caught inside `speak` and does not change the outcome, so it is not modelled.
- The canvas buffer is flattened to one sequence of channel values. `any()` (UI.py:105) does not depend on the shape; the colour conversion, which does read the RGBA layout, is part of the arbitrary resize function the handler is given, and the canvas's fixed 280x280 size (UI.py:59-60) means the flat buffer determines the array.
- Preprocessing.Scale: divides exact reals, not float32; this is exact for the 0 and 255 that thresholding leaves, and approximate for other pixels.
- PredictHandler.Messages: the error line for a failed lookup quotes the language name without Python's escaping of quotes and backslashes in `repr`.
- Any exception other than an empty score vector or an unknown language (for example one from the resize or the classifier) is not modelled; those steps are total functions here.
