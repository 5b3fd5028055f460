/**
 * The summarization adapter: the word-count threshold and the decision
 * chain around the browser summarizer, including its error classification.
 */
module Summarization {
  import opened JsText
  import opened Provider

  /** Default `minWords` of `checkTextLength`. */
  const DefaultMinWords: int := 150

  const UnavailableError := "Summarizer API is not available"
  const EmptySummaryError := "No summary was generated"
  const FailurePrefix := "Summarization failed: "
  const GpuAdvice := "GPU is busy. Try closing other browser tabs or check hardware acceleration settings."
  const TimeoutAdvice := "Operation timed out. Please try again."
  /** The message of the error the race timer rejects with. */
  const TimerMessage := "Summarization timed out"

  /**
   * `checkTextLength(text, minWords)`: more than `minWords` whitespace-separated
   * tokens. Even blank text splits into one token, so a bound below one always passes.
   */
  function CheckTextLength(text: string, minWords: int): (r: bool)
    ensures minWords < 1 ==> r
  {
    WordCount(text) > minWords
  }

  /** The `catch` block's message for a thrown error: GPU first, then "timeout", else raw. */
  function CaughtError(message: string): (r: string)
    ensures StartsWith(r, FailurePrefix)
    ensures Includes(message, "GPU") ==> r == FailurePrefix + GpuAdvice
    ensures !Includes(message, "GPU") && Includes(message, "timeout") ==> r == FailurePrefix + TimeoutAdvice
    ensures !Includes(message, "GPU") && !Includes(message, "timeout") ==> r == FailurePrefix + message
  {
    var detail :=
      if Includes(message, "GPU") then GpuAdvice
      else if Includes(message, "timeout") then TimeoutAdvice
      else message;
    assert (FailurePrefix + detail)[..|FailurePrefix|] == FailurePrefix;
    FailurePrefix + detail
  }

  /**
   * `summarizeText(text, onProgress)`. `caps` is what the capabilities query
   * settled to (a missing `window.ai` or summarizer throws there); `run` is
   * what creating the session and racing its summary against the timer
   * settled to. The text itself only reaches the provider, so it is not a
   * parameter.
   */
  function SummarizeText(caps: Query, run: Raced): (r: AdapterResult)
    ensures caps == Answered("no") ==> r == Failure(UnavailableError)
    ensures r.Success? <==>
      caps.Answered? && caps.available != "no" && run.Settled? && run.call.Produced? && run.call.text != ""
    ensures r.Success? ==> r.value == run.call.text
    ensures caps.QueryThrew? ==> r == Failure(CaughtError(caps.message))
    ensures caps.Answered? && caps.available != "no" ==>
      match run
      case TimedOut => r == Failure(CaughtError(TimerMessage))
      case Settled(Threw(m)) => r == Failure(CaughtError(m))
      case Settled(Nothing) => r == Failure(EmptySummaryError)
      case Settled(Produced(s)) => s == "" ==> r == Failure(EmptySummaryError)
  {
    match caps
    case QueryThrew(m) => Failure(CaughtError(m))
    case Answered(available) =>
      if available == "no" then Failure(UnavailableError)
      else
        match run
        case TimedOut => Failure(CaughtError(TimerMessage))
        case Settled(Threw(m)) => Failure(CaughtError(m))
        case Settled(Nothing) => Failure(EmptySummaryError)
        case Settled(Produced(s)) => if s == "" then Failure(EmptySummaryError) else Success(s)
  }

  /** Text of exactly `n` well-separated words passes the check iff `n > minWords`. */
  lemma CheckTextLengthOfWords(words: seq<string>, gaps: seq<string>, minWords: int)
    requires WellSeparated(words, gaps)
    ensures CheckTextLength(JoinWords(words, gaps), minWords) <==> |words| > minWords
  {
    WordCountOfWords(words, gaps);
  }

  /** With the default, 150 words are rejected and 151 are accepted. */
  lemma DefaultThreshold(words: seq<string>, gaps: seq<string>)
    requires WellSeparated(words, gaps)
    ensures |words| == 150 ==> !CheckTextLength(JoinWords(words, gaps), DefaultMinWords)
    ensures |words| == 151 ==> CheckTextLength(JoinWords(words, gaps), DefaultMinWords)
  {
    CheckTextLengthOfWords(words, gaps, DefaultMinWords);
  }

  /** Empty or whitespace-only text counts as one token, so it never passes a positive minimum. */
  lemma BlankTextTooShort(text: string, minWords: int)
    requires AllSpace(text) && minWords >= 1
    ensures !CheckTextLength(text, minWords)
  {
    WordCountOfBlank(text);
  }

  /** The timer's message has no 'G', so it does not contain "GPU". */
  lemma TimerMessageNoGpu()
    ensures !Includes(TimerMessage, "GPU")
  {
    var m := TimerMessage;
    assert forall i :: 0 <= i < |m| ==> m[i] != 'G';
    NotIncluded(m, "GPU", 0);
  }

  /** No 't' of the timer's message is followed four places on by an 'o', so "timeout" is absent. */
  lemma TimerMessageNoTimeout()
    ensures !Includes(TimerMessage, "timeout")
  {
    var m := TimerMessage;
    assert forall i :: 0 <= i <= |m| - 7 ==> m[i] != 't' || m[i + 4] != 'o';
    NotIncluded(m, "timeout", 4);
  }

  /**
   * The timer's own error does not contain "timeout", so it is reported
   * through the raw branch rather than with the timeout advice.
   */
  lemma TimeoutReportedRaw(caps: Query)
    requires caps.Answered? && caps.available != "no"
    ensures SummarizeText(caps, TimedOut) == Failure(FailurePrefix + TimerMessage)
    ensures SummarizeText(caps, TimedOut) != Failure(FailurePrefix + TimeoutAdvice)
  {
    TimerMessageNoGpu();
    TimerMessageNoTimeout();
  }

  /** Every failure either names the unavailable API or an empty summary, or carries the prefix. */
  lemma FailureMessages(caps: Query, run: Raced)
    requires SummarizeText(caps, run).Failure?
    ensures var e := SummarizeText(caps, run).error;
      e == UnavailableError || e == EmptySummaryError || StartsWith(e, FailurePrefix)
  {
  }
}
