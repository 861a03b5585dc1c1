/**
 * The Predict button handler (UI.py, lines 101-119) as a function from what
 * the handler sees to the outcome it reaches. The colour conversion and
 * resize, and the classifier, are parameters: the model only assumes that
 * they are functions.
 */
module PredictHandler {
  import opened Wrappers
  import opened DigitTables
  import opened Speech
  import opened Preprocessing

  /** The canvas buffer, every channel value of every pixel in order. */
  type RawImage = seq<Byte>

  const CANVAS_UNAVAILABLE_MESSAGE: string := "Canvas data is not available."
  const EMPTY_CANVAS_MESSAGE: string := "Please draw a digit on the canvas."
  const ERROR_PREFIX: string := "An error occurred: "

  /** What the handler asks of the text-to-speech service: text, language code, and the slow flag. */
  datatype SpeechRequest = SpeechRequest(text: string, lang: string, slow: bool)

  /** The exceptions the handler's own steps can raise before its catch-all. */
  datatype Failure =
    | EmptyScores              // arg-max of an empty score vector
    | UnknownLanguage(name: string)  // the table lookup's KeyError

  datatype Outcome =
    | CanvasUnavailable
    | EmptyCanvas
    | Predicted(digit: nat, language: string, word: string, speech: SpeechRequest)
    | Failed(failure: Failure)

  /** numpy's any(): some value of the buffer is non-zero. */
  function AnyNonZero(img: RawImage): (b: bool)
    ensures b <==> exists k :: 0 <= k < |img| && img[k] != 0
  {
    if img == [] then false else img[0] != 0 || AnyNonZero(img[1..])
  }

  /**
   * numpy's argmax on a non-empty vector: the index of the first occurrence
   * of the largest score.
   */
  function ArgMax(scores: seq<real>): (k: nat)
    requires |scores| > 0
    ensures k < |scores|
    ensures forall j :: 0 <= j < |scores| ==> scores[j] <= scores[k]
    ensures forall j :: 0 <= j < k ==> scores[j] < scores[k]
  {
    if |scores| == 1 then 0
    else
      var k := ArgMax(scores[..|scores| - 1]);
      if scores[|scores| - 1] > scores[k] then |scores| - 1 else k
  }

  /** The classifier's scores for the canvas image, after resize and preprocessing. */
  function Scores(img: RawImage, reduce: RawImage -> GrayImage, classify: Tensor -> seq<real>): seq<real> {
    classify(Preprocess(reduce(img)))
  }

  /**
   * One press of Predict: no image data, then an all-zero canvas, are
   * reported before anything else runs; otherwise the image is reduced and
   * preprocessed, classified, its arg-max translated, and the word sent to
   * speech with the language's code.
   */
  function HandlePredict(
    canvas: Option<RawImage>,
    language: string,
    reduce: RawImage -> GrayImage,
    classify: Tensor -> seq<real>): (o: Outcome)
    ensures canvas.None? <==> o == CanvasUnavailable
    ensures o == EmptyCanvas <==> canvas.Some? && !AnyNonZero(canvas.value)
    ensures o.Predicted? ==> o.language == language && o.speech == SpeechRequest(o.word, SpeechCode(language), false)
    ensures o.Predicted? ==> TranslateDigit(o.digit, language) == Word(o.word)
    ensures o.Predicted? && !IsDigit(o.digit) ==> o.word == INVALID_DIGIT
    ensures o.Predicted? ==>
      && canvas.Some? && |Scores(canvas.value, reduce, classify)| > 0
      && o.digit == ArgMax(Scores(canvas.value, reduce, classify))
    ensures canvas.Some? && AnyNonZero(canvas.value) ==>
      (o == Failed(EmptyScores) <==> |Scores(canvas.value, reduce, classify)| == 0)
    ensures o.Failed? && o.failure.UnknownLanguage? <==>
      && canvas.Some? && AnyNonZero(canvas.value)
      && |Scores(canvas.value, reduce, classify)| > 0
      && IsDigit(ArgMax(Scores(canvas.value, reduce, classify)))
      && language !in LANGUAGE_MAPPINGS
    ensures o.Failed? && o.failure.UnknownLanguage? ==> o.failure.name == language
  {
    match canvas
    case None => CanvasUnavailable
    case Some(img) =>
      if !AnyNonZero(img) then EmptyCanvas
      else
        var scores := Scores(img, reduce, classify);
        if |scores| == 0 then Failed(EmptyScores)
        else
          var digit := ArgMax(scores);
          match TranslateDigit(digit, language)
          case KeyError(name) => Failed(UnknownLanguage(name))
          case Word(word) => Predicted(digit, language, word, SpeechRequest(word, SpeechCode(language), false))
  }

  /** Decimal digits of a natural number, as Python formats an integer. */
  function DecimalString(n: nat): (s: string)
    ensures |s| > 0
    ensures IsDecimal(s)
    ensures n < 10 ==> s == [('0' as int + n) as char]
    ensures s[0] == '0' ==> n == 0
  {
    var last := [('0' as int + n % 10) as char];
    if n < 10 then last else DecimalString(n / 10) + last
  }

  /** The lines the handler writes for an outcome. */
  function Messages(o: Outcome): (lines: seq<string>)
    ensures o == CanvasUnavailable ==> lines == [CANVAS_UNAVAILABLE_MESSAGE]
    ensures o == EmptyCanvas ==> lines == [EMPTY_CANVAS_MESSAGE]
    ensures o.Predicted? ==> lines == [
      "Predicted Digit: " + DecimalString(o.digit),
      "Translation (" + o.language + "): " + o.word]
    ensures o.Failed? ==> |lines| == 1 && ERROR_PREFIX <= lines[0]
  {
    match o
    case CanvasUnavailable => [CANVAS_UNAVAILABLE_MESSAGE]
    case EmptyCanvas => [EMPTY_CANVAS_MESSAGE]
    case Predicted(d, l, w, _) =>
      ["Predicted Digit: " + DecimalString(d), "Translation (" + l + "): " + w]
    case Failed(EmptyScores) => [ERROR_PREFIX + "attempt to get argmax of an empty sequence"]
    case Failed(UnknownLanguage(name)) => [ERROR_PREFIX + "'" + name + "'"]
  }

  predicate IsDecimal(s: string) {
    forall i :: 0 <= i < |s| ==> '0' <= s[i] <= '9'
  }

  /** The value of a string of decimal digits. */
  function DecimalValue(s: string): (n: nat)
    requires IsDecimal(s)
    ensures s == [] ==> n == 0
  {
    if s == [] then 0 else 10 * DecimalValue(s[..|s| - 1]) + (s[|s| - 1] as int - '0' as int)
  }

  /** The printed digit reads back as the digit. */
  lemma {:induction false} DecimalRoundTrip(n: nat)
    ensures DecimalValue(DecimalString(n)) == n
  {
    var s := DecimalString(n);
    if n >= 10 {
      DecimalRoundTrip(n / 10);
      assert s[..|s| - 1] == DecimalString(n / 10);
    }
  }

  /** The first-maximum property pins down one index, so ArgMax is that index. */
  lemma ArgMaxIsFirstMaximum(scores: seq<real>, k: nat)
    requires k < |scores|
    requires forall j :: 0 <= j < |scores| ==> scores[j] <= scores[k]
    requires forall j :: 0 <= j < k ==> scores[j] < scores[k]
    ensures ArgMax(scores) == k
  {
  }

  /**
   * With no image data, or an image without a non-zero value, the handler
   * writes its guidance message and its outcome depends neither on the
   * language nor on the resize or the classifier: none of them runs.
   */
  lemma GuardsSkipPipeline(
    canvas: Option<RawImage>, language: string, other: string,
    reduce: RawImage -> GrayImage, reduce': RawImage -> GrayImage,
    classify: Tensor -> seq<real>, classify': Tensor -> seq<real>)
    requires canvas.None? || !AnyNonZero(canvas.value)
    ensures HandlePredict(canvas, language, reduce, classify) == HandlePredict(canvas, other, reduce', classify')
    ensures !HandlePredict(canvas, language, reduce, classify).Predicted?
    ensures canvas.None? ==> Messages(HandlePredict(canvas, language, reduce, classify)) == [CANVAS_UNAVAILABLE_MESSAGE]
    ensures canvas.Some? ==> Messages(HandlePredict(canvas, language, reduce, classify)) == [EMPTY_CANVAS_MESSAGE]
  {
  }

  /**
   * When the classifier returns ten scores and the language is one the
   * selector offers, the handler predicts the first-maximum digit, which lies
   * in 0..9, and translates it to that language's table word: the
   * "Invalid Digit" sentinel is never reached and no lookup fails.
   */
  lemma PredictNeverInvalid(
    img: RawImage, language: string,
    reduce: RawImage -> GrayImage, classify: Tensor -> seq<real>)
    requires AnyNonZero(img)
    requires language in LANGUAGE_MAPPINGS
    requires |classify(Preprocess(reduce(img)))| == 10
    ensures var o := HandlePredict(Some(img), language, reduce, classify);
      && o.Predicted?
      && o.digit == ArgMax(classify(Preprocess(reduce(img))))
      && IsDigit(o.digit)
      && o.word == LANGUAGE_MAPPINGS[language][o.digit]
      && o.word != INVALID_DIGIT && o.word != []
      && o.speech == SpeechRequest(o.word, SpeechCode(language), false)
      && Messages(o) == [
           "Predicted Digit: " + [('0' as int + o.digit) as char],
           "Translation (" + language + "): " + LANGUAGE_MAPPINGS[language][o.digit]]
  {
    SentinelIffOutOfRange(ArgMax(classify(Preprocess(reduce(img)))), language);
    SelectableNeverRaises(ArgMax(classify(Preprocess(reduce(img)))), language);
  }

  /**
   * Switching between two selectable languages for the same drawing changes
   * the translation and the speech request, never the predicted digit.
   */
  lemma LanguageChangesOnlyTranslation(
    img: RawImage, language: string, other: string,
    reduce: RawImage -> GrayImage, classify: Tensor -> seq<real>)
    requires AnyNonZero(img)
    requires language in LANGUAGE_MAPPINGS && other in LANGUAGE_MAPPINGS
    requires |classify(Preprocess(reduce(img)))| > 0
    ensures var o := HandlePredict(Some(img), language, reduce, classify);
      var o' := HandlePredict(Some(img), other, reduce, classify);
      o.Predicted? && o'.Predicted? && o.digit == o'.digit
  {
    var d := ArgMax(classify(Preprocess(reduce(img))));
    SelectableNeverRaises(d, language);
    SelectableNeverRaises(d, other);
  }

  /**
   * For a selectable language the sentinel word can only come from a score
   * vector longer than ten: with one to ten scores the arg-max is below 10.
   */
  lemma SentinelNeedsLongScores(
    img: RawImage, language: string,
    reduce: RawImage -> GrayImage, classify: Tensor -> seq<real>)
    requires language in LANGUAGE_MAPPINGS
    requires HandlePredict(Some(img), language, reduce, classify).Predicted?
    requires HandlePredict(Some(img), language, reduce, classify).word == INVALID_DIGIT
    ensures |Scores(img, reduce, classify)| > 10
  {
  }
}
