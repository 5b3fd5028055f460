/**
 * The older top-level `App` component, which runs its own pipeline: a
 * start-up token check, a throwing `detectLanguage`, and send and
 * translate handlers under a single `isLoading` flag. Unlike the context
 * provider it rejects empty input with an error, does not check for the
 * same language, and appends translations without de-duplicating them.
 */
module LegacyApp {
  import opened JsText
  import opened Provider
  import opened Conversation

  const NotAvailableError := "AI services not available. Please check your setup."
  const DetectorTokenMissing := "Language detector token is missing"
  const TranslatorTokenMissing := "Translator token is missing"
  const InitFailurePrefix := "Failed to initialize AI services: "
  const NotInitializedMessage := "AI services not initialized"
  const EmptyInputError := "Please enter some text"
  const NotInitializedError := "AI services not initialized. Please wait or refresh the page."
  const DetectionFailurePrefix := "Language detection failed: "
  const NoLanguageMessage := "No language detected"
  const TranslationFailurePrefix := "Translation failed: "
  const NoResultMessage := "Translation failed - no result received"

  /** What an `init({ token })` call settles to. */
  datatype InitStep = Ready | InitThrew(message: string)

  /**
   * `App`'s own `detectLanguage`: the first candidate's language, or the
   * message of the error it throws. An uninitialised call throws before the
   * `try`; inside it, a missing result and any provider error are rethrown
   * behind one prefix.
   */
  function DetectLanguage(initialized: bool, d: Detection): (r: AdapterResult)
    ensures !initialized ==> r == Failure(NotInitializedMessage)
    ensures initialized ==> (r.Success? <==> d.Detected? && d.results.Some? && |d.results.value| > 0)
    ensures r.Success? ==> r.value == d.results.value[0].detectedLanguage
    ensures initialized && d.DetectThrew? ==> r == Failure(DetectionFailurePrefix + d.message)
    ensures initialized && d.Detected? && r.Failure? ==> r == Failure(DetectionFailurePrefix + NoLanguageMessage)
  {
    if !initialized then Failure(NotInitializedMessage)
    else match d
      case DetectThrew(m) => Failure(DetectionFailurePrefix + m)
      case Detected(None) => Failure(DetectionFailurePrefix + NoLanguageMessage)
      case Detected(Some(results)) =>
        if |results| == 0 then Failure(DetectionFailurePrefix + NoLanguageMessage)
        else Success(results[0].detectedLanguage)
  }

  /**
   * What `handleTranslate`'s `try` makes of the translator's answer: the
   * text when it is a non-empty string; otherwise the thrown or the
   * no-result message behind the failure prefix.
   */
  function TranslateOutcome(call: Call): (r: AdapterResult)
    ensures r.Success? <==> call.Produced? && call.text != ""
    ensures r.Success? ==> r.value == call.text
    ensures call.Threw? ==> r == Failure(TranslationFailurePrefix + call.message)
    ensures call.Nothing? || call == Produced("") ==> r == Failure(TranslationFailurePrefix + NoResultMessage)
  {
    match call
    case Threw(m) => Failure(TranslationFailurePrefix + m)
    case Nothing => Failure(TranslationFailurePrefix + NoResultMessage)
    case Produced(s) =>
      if s == "" then Failure(TranslationFailurePrefix + NoResultMessage) else Success(s)
  }

  /** The legacy merge's callback on one message: a message with the id gains the translation, unconditionally. */
  function AppendInto(m: Message, id: int, target: string, content: string): (r: Message)
    ensures r.id == m.id && r.text == m.text && r.language == m.language
    ensures m.id != id ==> r == m
    ensures m.id == id ==> r.processed == m.processed + [Translation(content, target)]
  {
    if m.id == id then m.(processed := m.processed + [Translation(content, target)]) else m
  }

  /** `prev.map(...)` with the legacy callback. */
  function AppendTranslation(ms: seq<Message>, id: int, target: string, content: string): (r: seq<Message>)
    ensures |r| == |ms|
    ensures forall k :: 0 <= k < |ms| ==> r[k] == AppendInto(ms[k], id, target, content)
  {
    seq(|ms|, k requires 0 <= k < |ms| => AppendInto(ms[k], id, target, content))
  }

  /**
   * Translating one message to one language twice leaves it with two
   * translations for that language: the legacy merge breaks the store's
   * de-duplication invariant.
   */
  lemma RepeatedTranslateDuplicates(ms: seq<Message>, k: int, target: string, c1: string, c2: string)
    requires 0 <= k < |ms|
    ensures var twice := AppendTranslation(AppendTranslation(ms, ms[k].id, target, c1), ms[k].id, target, c2);
      && |twice[k].processed| == |ms[k].processed| + 2
      && !DuplicateFree(twice[k].processed)
  {
    var once := AppendTranslation(ms, ms[k].id, target, c1);
    var twice := AppendTranslation(once, ms[k].id, target, c2);
    var p := ms[k].processed;
    assert twice[k].processed == p + [Translation(c1, target)] + [Translation(c2, target)];
    assert SameSlot(twice[k].processed[|p|], twice[k].processed[|p| + 1]);
  }

  /** The state `App` keeps with `useState`. */
  class App {
    var messages: seq<Message>
    var inputText: string
    var selectedLanguage: string
    var error: string
    var isLoading: bool
    var isAIInitialized: bool

    constructor ()
      ensures messages == [] && inputText == "" && selectedLanguage == "en" && error == ""
      ensures !isLoading && !isAIInitialized
    {
      messages := [];
      inputText := "";
      selectedLanguage := "en";
      error := "";
      isLoading := false;
      isAIInitialized := false;
    }

    /**
     * The mount-time `initializeAI` effect: both tokens present and both
     * `init` calls settled mark the services initialised; otherwise the
     * first failure becomes the error.
     */
    method InitializeAi(
      hasAi: bool, detectorToken: bool, detectorInit: InitStep, translatorToken: bool, translatorInit: InitStep)
      modifies this`error, this`isAIInitialized
      ensures !hasAi ==> error == NotAvailableError && isAIInitialized == old(isAIInitialized)
      ensures hasAi && !detectorToken ==>
        error == InitFailurePrefix + DetectorTokenMissing && isAIInitialized == old(isAIInitialized)
      ensures hasAi && detectorToken && detectorInit.InitThrew? ==>
        error == InitFailurePrefix + detectorInit.message && isAIInitialized == old(isAIInitialized)
      ensures hasAi && detectorToken && detectorInit.Ready? && !translatorToken ==>
        error == InitFailurePrefix + TranslatorTokenMissing && isAIInitialized == old(isAIInitialized)
      ensures hasAi && detectorToken && detectorInit.Ready? && translatorToken && translatorInit.InitThrew? ==>
        error == InitFailurePrefix + translatorInit.message && isAIInitialized == old(isAIInitialized)
      ensures isAIInitialized != old(isAIInitialized) ==> isAIInitialized
      ensures hasAi && detectorToken && detectorInit.Ready? && translatorToken && translatorInit.Ready? ==>
        isAIInitialized && error == old(error)
    {
      if !hasAi {
        error := NotAvailableError;
        return;
      }
      if !detectorToken {
        error := InitFailurePrefix + DetectorTokenMissing;
        return;
      }
      if detectorInit.InitThrew? {
        error := InitFailurePrefix + detectorInit.message;
        return;
      }
      if !translatorToken {
        error := InitFailurePrefix + TranslatorTokenMissing;
        return;
      }
      if translatorInit.InitThrew? {
        error := InitFailurePrefix + translatorInit.message;
        return;
      }
      isAIInitialized := true;
    }

    /**
     * `handleSendMessage` up to its `await`: empty input is an error, then
     * uninitialised services are; otherwise loading starts, the error is
     * cleared and the input is sent for detection.
     */
    method BeginSend() returns (pending: Option<string>)
      modifies this`error, this`isLoading
      ensures AllSpace(inputText) ==> pending == None && error == EmptyInputError && isLoading == old(isLoading)
      ensures !AllSpace(inputText) && !isAIInitialized ==>
        pending == None && error == NotInitializedError && isLoading == old(isLoading)
      ensures !AllSpace(inputText) && isAIInitialized ==> pending == Some(inputText) && isLoading && error == ""
    {
      if AllSpace(inputText) {
        error := EmptyInputError;
        pending := None;
      } else if !isAIInitialized {
        error := NotInitializedError;
        pending := None;
      } else {
        isLoading := true;
        error := "";
        pending := Some(inputText);
      }
    }

    /**
     * `handleSendMessage` after detection: a language appends one new
     * message and clears the input; a thrown detection error becomes the
     * error and nothing else changes; loading stops either way.
     */
    method CompleteSend(text: string, id: int, detection: Detection)
      modifies this`messages, this`inputText, this`error, this`isLoading
      ensures !isLoading
      ensures var r := DetectLanguage(isAIInitialized, detection);
        r.Success? ==> messages == old(messages) + [Message(id, text, r.value, [])] && inputText == "" && error == old(error)
      ensures var r := DetectLanguage(isAIInitialized, detection);
        r.Failure? ==> messages == old(messages) && inputText == old(inputText) && error == r.error
    {
      var r := DetectLanguage(isAIInitialized, detection);
      if r.Success? {
        messages := messages + [Message(id, text, r.value, [])];
        inputText := "";
      } else {
        error := r.error;
      }
      isLoading := false;
    }

    /**
     * `handleTranslate` up to its `await`: uninitialised services are an
     * error; an absent message changes nothing; otherwise loading starts and
     * the error is cleared, whatever the two languages are.
     */
    method BeginTranslate(id: int) returns (pending: Option<TranslateRequest>)
      modifies this`error, this`isLoading
      ensures !isAIInitialized ==> pending == None && error == NotInitializedError && isLoading == old(isLoading)
      ensures isAIInitialized && FindIndex(messages, id).None? ==>
        pending == None && error == old(error) && isLoading == old(isLoading)
      ensures isAIInitialized && FindIndex(messages, id).Some? ==>
        var m := messages[FindIndex(messages, id).value];
        pending == Some(TranslateRequest(id, m.text, m.language, selectedLanguage)) && isLoading && error == ""
    {
      if !isAIInitialized {
        error := NotInitializedError;
        return None;
      }
      var found := FindIndex(messages, id);
      if found.None? {
        return None;
      }
      var m := messages[found.value];
      isLoading := true;
      error := "";
      pending := Some(TranslateRequest(id, m.text, m.language, selectedLanguage));
    }

    /**
     * `handleTranslate` after the translator answers: a text is appended to
     * every message with the id, even when one for that language exists; a
     * failure only sets the error; loading stops either way.
     */
    method CompleteTranslate(request: TranslateRequest, call: Call)
      modifies this`messages, this`error, this`isLoading
      ensures !isLoading
      ensures var r := TranslateOutcome(call);
        r.Success? ==> messages == AppendTranslation(old(messages), request.id, request.target, r.value) && error == old(error)
      ensures var r := TranslateOutcome(call);
        r.Failure? ==> messages == old(messages) && error == r.error
    {
      var r := TranslateOutcome(call);
      if r.Success? {
        messages := AppendTranslation(messages, request.id, request.target, r.value);
      } else {
        error := r.error;
      }
      isLoading := false;
    }
  }
}
