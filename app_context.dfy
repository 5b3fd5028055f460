/**
 * The context provider that owns the conversation store and runs the
 * message pipeline: sending, translating, summarizing, clearing, and the
 * start-up status probe.
 *
 * Each asynchronous handler is split at its `await`: a `Begin` method runs
 * the guards, sets the busy flag and clears the error; a `Complete` method
 * receives the provider's outcome, merges or reports it, and resets the
 * flags. Anything (`ClearChat`, another handler) may run between the two.
 */
module AppContext {
  import opened JsText
  import opened Provider
  import opened Conversation
  import Translation
  import Summarization
  import ApiInitialization

  const NoLanguageError := "Could not detect language"
  const TooShortError := "Text is too short for summarization (minimum 150 words required)"
  const InitialLanguage := "en"
  const CheckingStatus := "checking"
  const UnsupportedStatus := "unsupported"

  /** The `languages` list offered for translation. */
  const Languages: seq<(string, string)> := [
    ("en", "English"), ("pt", "Portuguese"), ("es", "Spanish"),
    ("ru", "Russian"), ("tr", "Turkish"), ("fr", "French")
  ]

  /** `getLanguageName`'s own `languageMap`. */
  const LanguageMap: map<string, string> := map[
    "en" := "English", "pt" := "Portuguese", "es" := "Spanish",
    "ru" := "Russian", "tr" := "Turkish", "fr" := "French"
  ]

  /** `languageMap[code] || code` */
  function GetLanguageName(code: string): (r: string)
    ensures code in LanguageMap ==> r == LanguageMap[code]
    ensures code !in LanguageMap ==> r == code
  {
    if code in LanguageMap && LanguageMap[code] != "" then LanguageMap[code] else code
  }

  /** The map agrees with the `languages` list, and any other code names itself. */
  lemma LanguageNames(code: string)
    ensures forall k :: 0 <= k < |Languages| ==> GetLanguageName(Languages[k].0) == Languages[k].1
    ensures (forall k :: 0 <= k < |Languages| ==> Languages[k].0 != code) ==> GetLanguageName(code) == code
  {
    if forall k :: 0 <= k < |Languages| ==> Languages[k].0 != code {
      assert Languages[0].0 != code && Languages[1].0 != code && Languages[2].0 != code;
      assert Languages[3].0 != code && Languages[4].0 != code && Languages[5].0 != code;
      assert code !in LanguageMap;
    }
  }

  /**
   * The translation merge's callback on one message: a message with the id
   * gains the translation unless it already holds one for `target`.
   */
  function TranslateInto(m: Message, id: int, target: string, content: string): (r: Message)
    ensures r.id == m.id && r.text == m.text && r.language == m.language
    ensures m.id != id || HasTranslation(m.processed, target) ==> r == m
    ensures m.id == id && !HasTranslation(m.processed, target) ==>
      r.processed == m.processed + [Translation(content, target)]
    ensures m.id == id ==> HasTranslation(r.processed, target)
  {
    if m.id == id && !HasTranslation(m.processed, target) then
      var r := m.(processed := m.processed + [Translation(content, target)]);
      assert r.processed[|m.processed|] == Translation(content, target);
      r
    else m
  }

  /** `prev.map(...)` with the translation callback. */
  function MergeTranslation(ms: seq<Message>, id: int, target: string, content: string): (r: seq<Message>)
    ensures |r| == |ms|
    ensures forall k :: 0 <= k < |ms| ==> r[k] == TranslateInto(ms[k], id, target, content)
  {
    seq(|ms|, k requires 0 <= k < |ms| => TranslateInto(ms[k], id, target, content))
  }

  /**
   * The summary merge's callback on one message: a message with the id
   * gains the summary unless it already holds one.
   */
  function SummarizeInto(m: Message, id: int, content: string): (r: Message)
    ensures r.id == m.id && r.text == m.text && r.language == m.language
    ensures m.id != id || HasSummary(m.processed) ==> r == m
    ensures m.id == id && !HasSummary(m.processed) ==> r.processed == m.processed + [Summary(content)]
    ensures m.id == id ==> HasSummary(r.processed)
  {
    if m.id == id && !HasSummary(m.processed) then
      var r := m.(processed := m.processed + [Summary(content)]);
      assert r.processed[|m.processed|] == Summary(content);
      r
    else m
  }

  /** `prev.map(...)` with the summary callback. */
  function MergeSummary(ms: seq<Message>, id: int, content: string): (r: seq<Message>)
    ensures |r| == |ms|
    ensures forall k :: 0 <= k < |ms| ==> r[k] == SummarizeInto(ms[k], id, content)
  {
    seq(|ms|, k requires 0 <= k < |ms| => SummarizeInto(ms[k], id, content))
  }

  /** A translation merge keeps every message duplicate-free. */
  lemma MergeTranslationKeepsDuplicateFree(ms: seq<Message>, id: int, target: string, content: string)
    requires StoreDuplicateFree(ms)
    ensures StoreDuplicateFree(MergeTranslation(ms, id, target, content))
  {
    var r := MergeTranslation(ms, id, target, content);
    forall k | 0 <= k < |r| ensures DuplicateFree(r[k].processed) {
      if ms[k].id == id && !HasTranslation(ms[k].processed, target) {
        var p := ms[k].processed;
        assert forall i :: 0 <= i < |p| ==> !SameSlot(p[i], Translation(content, target));
        AppendKeepsDuplicateFree(p, Translation(content, target));
      }
    }
  }

  /** A summary merge keeps every message duplicate-free. */
  lemma MergeSummaryKeepsDuplicateFree(ms: seq<Message>, id: int, content: string)
    requires StoreDuplicateFree(ms)
    ensures StoreDuplicateFree(MergeSummary(ms, id, content))
  {
    var r := MergeSummary(ms, id, content);
    forall k | 0 <= k < |r| ensures DuplicateFree(r[k].processed) {
      if ms[k].id == id && !HasSummary(ms[k].processed) {
        var p := ms[k].processed;
        assert forall i :: 0 <= i < |p| ==> !SameSlot(p[i], Summary(content));
        AppendKeepsDuplicateFree(p, Summary(content));
      }
    }
  }

  /** Translating the same message to the same language twice adds nothing the second time. */
  lemma MergeTranslationIdempotent(ms: seq<Message>, id: int, target: string, c1: string, c2: string)
    ensures MergeTranslation(MergeTranslation(ms, id, target, c1), id, target, c2)
         == MergeTranslation(ms, id, target, c1)
  {
    var once := MergeTranslation(ms, id, target, c1);
    var twice := MergeTranslation(once, id, target, c2);
    assert |twice| == |once|;
    forall k | 0 <= k < |once| ensures twice[k] == once[k] {
      if once[k].id == id {
        assert HasTranslation(once[k].processed, target);
      }
    }
  }

  /** Summarizing the same message twice adds nothing the second time. */
  lemma MergeSummaryIdempotent(ms: seq<Message>, id: int, c1: string, c2: string)
    ensures MergeSummary(MergeSummary(ms, id, c1), id, c2) == MergeSummary(ms, id, c1)
  {
    var once := MergeSummary(ms, id, c1);
    var twice := MergeSummary(once, id, c2);
    assert |twice| == |once|;
    forall k | 0 <= k < |once| ensures twice[k] == once[k] {
      if once[k].id == id {
        assert HasSummary(once[k].processed);
      }
    }
  }

  /** A merge into an id that is no longer in the store (say, after a clear) changes nothing. */
  lemma MergeIntoMissingIdIsNoop(ms: seq<Message>, id: int, target: string, content: string)
    requires FindIndex(ms, id).None?
    ensures MergeTranslation(ms, id, target, content) == ms
    ensures MergeSummary(ms, id, content) == ms
  {
    var r := MergeTranslation(ms, id, target, content);
    assert forall k :: 0 <= k < |ms| ==> r[k] == ms[k];
    var s := MergeSummary(ms, id, content);
    assert forall k :: 0 <= k < |ms| ==> s[k] == ms[k];
  }

  /**
   * `handleTranslate`'s guard: find the message; stop when it is absent or
   * already in the selected language; otherwise request a translation of
   * its text from its language into the selected one.
   */
  function TranslateGate(ms: seq<Message>, id: int, selected: string): (r: Option<TranslateRequest>)
    ensures r.None? <==> FindIndex(ms, id).None? || ms[FindIndex(ms, id).value].language == selected
    ensures r.Some? ==>
      var m := ms[FindIndex(ms, id).value];
      r.value == TranslateRequest(id, m.text, m.language, selected)
    ensures r.Some? ==> r.value.source != r.value.target
  {
    match FindIndex(ms, id)
    case None => None
    case Some(k) =>
      if ms[k].language == selected then None
      else Some(TranslateRequest(id, ms[k].text, ms[k].language, selected))
  }

  /** What `handleSummarize` captures before its `await`. */
  datatype SummarizeRequest = SummarizeRequest(id: int, text: string)

  datatype SummarizeStart = NotFound | TooShort | Start(request: SummarizeRequest)

  /**
   * `handleSummarize`'s guard: find the message; stop when it is absent;
   * reject it when its text has too few words; otherwise request a summary.
   */
  function SummarizeGate(ms: seq<Message>, id: int): (r: SummarizeStart)
    ensures r.NotFound? <==> FindIndex(ms, id).None?
    ensures r.TooShort? <==>
      FindIndex(ms, id).Some? && !Summarization.CheckTextLength(ms[FindIndex(ms, id).value].text, Summarization.DefaultMinWords)
    ensures r.Start? ==> r.request == SummarizeRequest(id, ms[FindIndex(ms, id).value].text)
    ensures r.Start? ==> Summarization.CheckTextLength(r.request.text, Summarization.DefaultMinWords)
  {
    match FindIndex(ms, id)
    case None => NotFound
    case Some(k) =>
      if !Summarization.CheckTextLength(ms[k].text, Summarization.DefaultMinWords) then TooShort
      else Start(SummarizeRequest(id, ms[k].text))
  }

  /** `!value` for a string that may be `null`. */
  predicate Falsy(s: Option<string>) {
    s.None? || s.value == ""
  }

  /** The state `AppProvider` keeps with `useState`. */
  class AppProvider {
    var messages: seq<Message>
    var inputText: string
    var selectedLanguage: string
    var error: string
    var isTranslating: bool
    var isSummarizing: bool
    var apiStatus: string
    var downloadProgress: Option<Progress>

    /** Every message was created with a detected language and holds no duplicate results. */
    ghost predicate Valid()
      reads this
    {
      && StoreDuplicateFree(messages)
      && (forall k :: 0 <= k < |messages| ==> messages[k].language != "")
    }

    constructor ()
      ensures Valid()
      ensures messages == [] && inputText == "" && selectedLanguage == InitialLanguage && error == ""
      ensures !isTranslating && !isSummarizing && apiStatus == CheckingStatus && downloadProgress == None
    {
      messages := [];
      inputText := "";
      selectedLanguage := InitialLanguage;
      error := "";
      isTranslating := false;
      isSummarizing := false;
      apiStatus := CheckingStatus;
      downloadProgress := None;
    }

    /**
     * The mount-time `initializeAPI` effect. Without `window.ai` the status
     * is "unsupported" with the browser error; otherwise the status is the
     * summarizer's `available` value, and the error changes only when the
     * probe reports one.
     */
    method InitializeApi(w: Window, query: Query)
      modifies this`apiStatus, this`error
      ensures w.NoAi? ==> apiStatus == UnsupportedStatus && error == ApiInitialization.BrowserError
      ensures w.Ai? ==>
        var st := ApiInitialization.CheckSummarizerAvailability(w.hasSummarizer, query);
        && apiStatus == st.available
        && error == (if Falsy(st.error) then old(error) else st.error.value)
    {
      var support := ApiInitialization.CheckBrowserSupport(w);
      if !support.isSupported {
        error := support.error.value;
        apiStatus := UnsupportedStatus;
        return;
      }
      var st := ApiInitialization.CheckSummarizerAvailability(w.hasSummarizer, query);
      apiStatus := st.available;
      if !Falsy(st.error) {
        error := st.error.value;
      }
    }

    /** `setInputText` */
    method SetInputText(text: string)
      modifies this`inputText
      ensures inputText == text
    {
      inputText := text;
    }

    /** `setSelectedLanguage` */
    method SetSelectedLanguage(code: string)
      modifies this`selectedLanguage
      ensures selectedLanguage == code
    {
      selectedLanguage := code;
    }

    /** The `onProgress` callback handed to the adapters. */
    method OnProgress(p: Progress)
      modifies this`downloadProgress
      ensures downloadProgress == Some(p)
    {
      downloadProgress := Some(p);
    }

    /**
     * `handleSendMessage` up to its `await`: input that trims to nothing
     * changes nothing at all; otherwise the error is cleared and the input
     * is sent for detection.
     */
    method BeginSend() returns (pending: Option<string>)
      modifies this`error
      ensures AllSpace(inputText) ==> pending == None && error == old(error)
      ensures !AllSpace(inputText) ==> pending == Some(inputText) && error == ""
    {
      if AllSpace(inputText) {
        return None;
      }
      error := "";
      pending := Some(inputText);
    }

    /**
     * `handleSendMessage` after detection: without a language the error is
     * set and nothing else changes; with one, exactly one new message with
     * no results is appended and the input is cleared.
     */
    method CompleteSend(text: string, id: int, detection: Detection)
      requires Valid()
      modifies this`messages, this`inputText, this`error
      ensures Valid()
      ensures Falsy(Translation.DetectLanguage(detection)) ==>
        error == NoLanguageError && messages == old(messages) && inputText == old(inputText)
      ensures !Falsy(Translation.DetectLanguage(detection)) ==>
        && messages == old(messages) + [Message(id, text, Translation.DetectLanguage(detection).value, [])]
        && inputText == "" && error == old(error)
    {
      var detected := Translation.DetectLanguage(detection);
      if Falsy(detected) {
        error := NoLanguageError;
        return;
      }
      messages := messages + [Message(id, text, detected.value, [])];
      inputText := "";
    }

    /**
     * `handleTranslate` up to its `await`: nothing changes when the message
     * is absent or already in the selected language; otherwise the
     * translation flag is raised and the error cleared.
     */
    method BeginTranslate(id: int) returns (pending: Option<TranslateRequest>)
      modifies this`isTranslating, this`error
      ensures pending == TranslateGate(messages, id, selectedLanguage)
      ensures pending.None? ==> isTranslating == old(isTranslating) && error == old(error)
      ensures pending.Some? ==> isTranslating && error == ""
    {
      pending := TranslateGate(messages, id, selectedLanguage);
      if pending.Some? {
        isTranslating := true;
        error := "";
      }
    }

    /**
     * `handleTranslate` after the adapter answers: a success is merged
     * without duplicating a translation; a failure only sets the error; the
     * flag and the progress are reset either way.
     */
    method CompleteTranslate(request: TranslateRequest, w: Window, call: Call)
      requires Valid()
      modifies this`messages, this`error, this`isTranslating, this`downloadProgress
      ensures Valid()
      ensures !isTranslating && downloadProgress == None
      ensures var r := Translation.TranslateText(w, request.source, request.target, call);
        r.Success? ==>
          messages == MergeTranslation(old(messages), request.id, request.target, r.value) && error == old(error)
      ensures var r := Translation.TranslateText(w, request.source, request.target, call);
        r.Failure? ==> messages == old(messages) && error == r.error
    {
      var result := Translation.TranslateText(w, request.source, request.target, call);
      if result.Success? {
        MergeTranslationKeepsDuplicateFree(messages, request.id, request.target, result.value);
        messages := MergeTranslation(messages, request.id, request.target, result.value);
      } else {
        error := result.error;
      }
      isTranslating := false;
      downloadProgress := None;
    }

    /**
     * `handleSummarize` up to its `await`: nothing changes when the message
     * is absent; a text of too few words only sets the error; otherwise the
     * summarizing flag is raised and the error cleared.
     */
    method BeginSummarize(id: int) returns (pending: Option<SummarizeRequest>)
      modifies this`isSummarizing, this`error
      ensures var gate := SummarizeGate(messages, id);
        && (gate.NotFound? ==> pending == None && isSummarizing == old(isSummarizing) && error == old(error))
        && (gate.TooShort? ==> pending == None && isSummarizing == old(isSummarizing) && error == TooShortError)
        && (gate.Start? ==> pending == Some(gate.request) && isSummarizing && error == "")
    {
      var gate := SummarizeGate(messages, id);
      if gate.NotFound? {
        pending := None;
      } else if gate.TooShort? {
        error := TooShortError;
        pending := None;
      } else {
        isSummarizing := true;
        error := "";
        pending := Some(gate.request);
      }
    }

    /**
     * `handleSummarize` after the adapter answers: a success is merged
     * unless the message already has a summary; a failure only sets the
     * error; the flag and the progress are reset either way.
     */
    method CompleteSummarize(request: SummarizeRequest, caps: Query, run: Raced)
      requires Valid()
      modifies this`messages, this`error, this`isSummarizing, this`downloadProgress
      ensures Valid()
      ensures !isSummarizing && downloadProgress == None
      ensures var r := Summarization.SummarizeText(caps, run);
        r.Success? ==> messages == MergeSummary(old(messages), request.id, r.value) && error == old(error)
      ensures var r := Summarization.SummarizeText(caps, run);
        r.Failure? ==> messages == old(messages) && error == r.error
    {
      var result := Summarization.SummarizeText(caps, run);
      if result.Success? {
        MergeSummaryKeepsDuplicateFree(messages, request.id, result.value);
        messages := MergeSummary(messages, request.id, result.value);
      } else {
        error := result.error;
      }
      isSummarizing := false;
      downloadProgress := None;
    }

    /** `clearChat`: empties the store, the input and the error, and nothing else. */
    method ClearChat()
      modifies this`messages, this`inputText, this`error
      ensures Valid()
      ensures messages == [] && inputText == "" && error == ""
    {
      messages := [];
      inputText := "";
      error := "";
    }
  }
}
