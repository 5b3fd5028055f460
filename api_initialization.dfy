/**
 * Start-up probing of the browser's AI surface: whether `window.ai` exists
 * and what the summarizer's capabilities query reports.
 */
module ApiInitialization {
  import opened JsText
  import opened Provider

  /** `{ isSupported, error }` */
  datatype BrowserSupport = BrowserSupport(isSupported: bool, error: Option<string>)

  /** `{ available, error }` */
  datatype SummarizerStatus = SummarizerStatus(available: string, error: Option<string>)

  const BrowserError := "Please use Chrome or Edge browser"
  const SummarizerMissingError := "Summarizer API is not supported in this browser"
  const StatusErrorPrefix := "Failed to check API status: "

  /** `checkBrowserSupport()` */
  function CheckBrowserSupport(w: Window): (r: BrowserSupport)
    ensures !r.isSupported <==> w.NoAi?
    ensures r.isSupported ==> r.error == None
    ensures !r.isSupported ==> r.error == Some(BrowserError)
  {
    if w.NoAi? then BrowserSupport(false, Some(BrowserError))
    else BrowserSupport(true, None)
  }

  /**
   * `checkSummarizerAvailability()`, called once `window.ai` is known to
   * exist. `hasSummarizer` is `"summarizer" in window.ai`; `query` is what
   * `window.ai.summarizer.capabilities()` settled to.
   */
  function CheckSummarizerAvailability(hasSummarizer: bool, query: Query): (r: SummarizerStatus)
    ensures !hasSummarizer ==> r == SummarizerStatus("no", Some(SummarizerMissingError))
    ensures hasSummarizer && query.Answered? ==> r == SummarizerStatus(query.available, None)
    ensures hasSummarizer && query.QueryThrew? ==>
      r.available == "error" && r.error == Some(StatusErrorPrefix + query.message)
    ensures r.error.None? <==> hasSummarizer && query.Answered?
    ensures r.error.Some? ==> r.error.value != ""
  {
    if !hasSummarizer then SummarizerStatus("no", Some(SummarizerMissingError))
    else match query
      case Answered(available) => SummarizerStatus(available, None)
      case QueryThrew(m) => SummarizerStatus("error", Some(StatusErrorPrefix + m))
  }

  /** Every error the probe reports names the missing summarizer or carries the status prefix. */
  lemma ProbeErrorMessages(hasSummarizer: bool, query: Query)
    requires CheckSummarizerAvailability(hasSummarizer, query).error.Some?
    ensures var e := CheckSummarizerAvailability(hasSummarizer, query).error.value;
      e == SummarizerMissingError || StartsWith(e, StatusErrorPrefix)
  {
    var r := CheckSummarizerAvailability(hasSummarizer, query);
    if hasSummarizer {
      assert (StatusErrorPrefix + query.message)[..|StatusErrorPrefix|] == StatusErrorPrefix;
    }
  }
}
