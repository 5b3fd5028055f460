/**
 * The per-message controls: the word count, which buttons are shown or
 * disabled, and which language options are disabled. These conditions are
 * what keeps a second translation or summary from being requested while
 * one is in flight, so they are checked here against the provider's guards.
 */
module MessageControls {
  import opened JsText
  import opened Provider
  import opened Conversation
  import Summarization
  import Translation
  import AppContext

  /** Word count above which the summarize button appears. */
  const SummarizeButtonWords: nat := 150

  /** `getWordCount(text)` */
  function GetWordCount(text: string): (n: nat)
    ensures n >= 1
    ensures forall minWords :: Summarization.CheckTextLength(text, minWords) <==> n > minWords
  {
    WordCount(text)
  }

  /** The summarize button is rendered for long English messages. */
  function SummarizeShown(m: Message): (r: bool)
    ensures r ==> m.language == "en" && Summarization.CheckTextLength(m.text, Summarization.DefaultMinWords)
  {
    GetWordCount(m.text) > SummarizeButtonWords && m.language == "en"
  }

  /** The translate button's `disabled` condition. */
  function TranslateDisabled(selected: string, m: Message, isTranslating: bool, apiStatus: string): (r: bool)
    ensures isTranslating ==> r
    ensures !r ==> apiStatus != "checking" && selected != m.language
  {
    selected == m.language || isTranslating || apiStatus == "checking"
  }

  /** The summarize button's `disabled` condition. */
  function SummarizeDisabled(isSummarizing: bool, apiStatus: string): (r: bool)
    ensures isSummarizing ==> r
    ensures !r ==> apiStatus !in {"no", "unsupported", "error", "checking"}
  {
    || isSummarizing
    || apiStatus == "no" || apiStatus == "unsupported" || apiStatus == "error" || apiStatus == "checking"
  }

  /** A language option's `disabled` condition. */
  function OptionDisabled(code: string, m: Message): (r: bool)
    ensures r ==> forall isTranslating, apiStatus :: TranslateDisabled(code, m, isTranslating, apiStatus)
  {
    code == m.language
  }

  /**
   * The button's word count is the summarizer's measure: whenever the
   * button is shown, `handleSummarize`'s length guard passes.
   */
  lemma ShownPassesLengthGuard(m: Message)
    requires SummarizeShown(m)
    ensures Summarization.CheckTextLength(m.text, Summarization.DefaultMinWords)
  {
  }

  /** For text of `n` well-separated words the button appears iff `n > 150` and the text is English. */
  lemma SummarizeShownForWords(id: int, words: seq<string>, gaps: seq<string>, language: string, p: seq<Processed>)
    requires WellSeparated(words, gaps)
    ensures SummarizeShown(Message(id, JoinWords(words, gaps), language, p)) <==> |words| > 150 && language == "en"
  {
    WordCountOfWords(words, gaps);
  }

  /**
   * An enabled translate button on the store's first message with its id
   * means no translation is in flight, the status probe has finished, and
   * `handleTranslate` will start; the adapter's same-language check will not
   * fire, so its answer is the support check or the session's.
   */
  lemma TranslateEnabledStarts(
    ms: seq<Message>, k: int, selected: string, isTranslating: bool, apiStatus: string, w: Window, call: Call)
    requires 0 <= k < |ms| && FindIndex(ms, ms[k].id) == Some(k)
    requires !TranslateDisabled(selected, ms[k], isTranslating, apiStatus)
    ensures !isTranslating && apiStatus != "checking"
    ensures AppContext.TranslateGate(ms, ms[k].id, selected)
         == Some(TranslateRequest(ms[k].id, ms[k].text, ms[k].language, selected))
    ensures Translation.TranslateText(w, ms[k].language, selected, call)
         == if Translation.TranslatorPresent(w) then Translation.SessionResult(call)
            else Failure(Translation.UnsupportedError)
  {
  }

  /**
   * A shown and enabled summarize button on the store's first message with
   * its id means no summary is in flight and `handleSummarize` will start.
   */
  lemma SummarizeEnabledStarts(ms: seq<Message>, k: int, isSummarizing: bool, apiStatus: string)
    requires 0 <= k < |ms| && FindIndex(ms, ms[k].id) == Some(k)
    requires SummarizeShown(ms[k]) && !SummarizeDisabled(isSummarizing, apiStatus)
    ensures !isSummarizing
    ensures AppContext.SummarizeGate(ms, ms[k].id) == AppContext.Start(AppContext.SummarizeRequest(ms[k].id, ms[k].text))
  {
    ShownPassesLengthGuard(ms[k]);
  }

  /**
   * Selecting a disabled language option is exactly the choice for which
   * `handleTranslate` would stop at its same-language guard.
   */
  lemma OptionDisabledMatchesGuard(ms: seq<Message>, k: int, code: string)
    requires 0 <= k < |ms| && FindIndex(ms, ms[k].id) == Some(k)
    ensures OptionDisabled(code, ms[k]) <==> AppContext.TranslateGate(ms, ms[k].id, code).None?
  {
  }
}
