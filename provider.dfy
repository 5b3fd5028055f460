/**
 * The browser's `window.ai` surface, seen from the adapters. The provider
 * calls themselves (create, detect, translate, summarize, capabilities)
 * are foreign; each is represented here only by what it settles to.
 */
module Provider {

  /** JavaScript `null` / `undefined` versus a present value. */
  datatype Option<+T> = None | Some(value: T)

  /** Which namespaces the page finds: `"ai" in window`, then members of `window.ai`. */
  datatype Window = NoAi | Ai(hasTranslator: bool, hasSummarizer: bool)

  /**
   * What creating a session and invoking it settles to: a string, a falsy
   * non-string (`null` / `undefined`), or a thrown error with its message.
   */
  datatype Call = Produced(text: string) | Nothing | Threw(message: string)

  /** `Promise.race([summarizer.summarize(...), timeoutPromise])`. */
  datatype Raced = Settled(call: Call) | TimedOut

  /** What `summarizer.capabilities()` settles to. */
  datatype Query = Answered(available: string) | QueryThrew(message: string)

  /** One entry of a language detector's result list. */
  datatype Candidate = Candidate(detectedLanguage: string)

  /**
   * What creating a detector and calling `detect` settles to: a result list
   * (or `null` / `undefined`), or a thrown error.
   */
  datatype Detection = Detected(results: Option<seq<Candidate>>) | DetectThrew(message: string)

  /** An adapter's `{ success: true, <value> }` or `{ success: false, error }`. */
  datatype AdapterResult = Success(value: string) | Failure(error: string)

  /** The `{ loaded, total, percentage }` record a download-progress event reports. */
  datatype Progress = Progress(loaded: int, total: int, percentage: int)
}
