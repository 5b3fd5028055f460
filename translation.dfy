/**
 * The translation adapter: language detection's result selection and the
 * guard chain around the browser translator.
 */
module Translation {
  import opened Provider

  const UnsupportedError := "Translation API not supported in this browser"
  const SameLanguageError := "Source and target languages are the same"
  const EmptyTranslationError := "No translation was generated"

  /**
   * `detectLanguage(text)`: the first candidate's language, or `null` when
   * the result list is absent or empty or when anything throws.
   */
  function DetectLanguage(d: Detection): (r: Option<string>)
    ensures r.Some? <==> d.Detected? && d.results.Some? && |d.results.value| > 0
    ensures r.Some? ==> r.value == d.results.value[0].detectedLanguage
    ensures d.DetectThrew? ==> r == None
  {
    match d
    case DetectThrew(_) => None
    case Detected(None) => None
    case Detected(Some(results)) =>
      if |results| == 0 then None else Some(results[0].detectedLanguage)
  }

  /** `"ai" in window && "translator" in window.ai` */
  function TranslatorPresent(w: Window): (r: bool)
    ensures r ==> w.Ai?
  {
    w.Ai? && w.hasTranslator
  }

  /**
   * What `translateText` makes of a created session's answer: the text when
   * it is a non-empty string, the empty-result error otherwise, and the
   * thrown message verbatim.
   */
  function SessionResult(call: Call): (r: AdapterResult)
    ensures r.Success? <==> call.Produced? && call.text != ""
    ensures r.Success? ==> r.value == call.text
    ensures call.Threw? ==> r == Failure(call.message)
    ensures call.Nothing? || call == Produced("") ==> r == Failure(EmptyTranslationError)
  {
    match call
    case Threw(m) => Failure(m)
    case Nothing => Failure(EmptyTranslationError)
    case Produced(s) => if s == "" then Failure(EmptyTranslationError) else Success(s)
  }

  /**
   * `translateText(text, sourceLanguage, targetLanguage, onProgress)`.
   * `call` is what creating the translator and translating settled to; it
   * is consulted only once both guards have passed.
   */
  function TranslateText(w: Window, source: string, target: string, call: Call): (r: AdapterResult)
    ensures !TranslatorPresent(w) ==> r == Failure(UnsupportedError)
    ensures TranslatorPresent(w) && source == target ==> r == Failure(SameLanguageError)
    ensures TranslatorPresent(w) && source != target ==> r == SessionResult(call)
    ensures r.Success? <==> TranslatorPresent(w) && source != target && call.Produced? && call.text != ""
  {
    if !TranslatorPresent(w) then Failure(UnsupportedError)
    else if source == target then Failure(SameLanguageError)
    else SessionResult(call)
  }

  /** A rejected request never depends on the provider: no translator is created. */
  lemma RejectedWithoutSession(w: Window, source: string, target: string, c1: Call, c2: Call)
    requires !TranslatorPresent(w) || source == target
    ensures TranslateText(w, source, target, c1) == TranslateText(w, source, target, c2)
  {
  }

  /** A successful translation is the provider's non-empty text, returned verbatim. */
  lemma SuccessIsProducedText(w: Window, source: string, target: string, call: Call)
    requires TranslateText(w, source, target, call).Success?
    ensures call == Produced(TranslateText(w, source, target, call).value)
    ensures TranslateText(w, source, target, call).value != ""
  {
  }
}
