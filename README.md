# Message-processing pipeline of the browser-AI chat

The application is a chat-style page. The user types text. The browser's built-in language detector labels the text with a language. Each message can then be translated into a selected language or, when it is long English text, summarized. Every result is stored on its message as a *processed* entry.

This project models the part with state and failure handling:

- **`AppProvider`** (`src/context/AppContext.jsx`, the `AppContext` module) owns:
  - the message store;
  - the busy flags `isTranslating` and `isSummarizing`;
  - the API status and the download progress.

  It runs the start-up status probe and the send, translate, summarize and clear handlers.
- **The three adapters** are in `src/utils/` (modules `Summarization`, `Translation` and `ApiInitialization`). Each wraps one browser service and turns its outcome into `{ success, value | error }`.
- **The per-message controls** are in `src/components/MessageControls.jsx` (module `MessageControls`). They decide which buttons are shown or disabled. Those conditions are checked against the provider's own guards.
- **The older `App` component** is in `src/App.jsx` (module `LegacyApp`). It runs its own initialisation and its own send and translate handlers under a single `isLoading` flag.

Shared pieces:

- `JsText` models the JavaScript string operations the code relies on: `trim`, `split(/\s+/)` and `includes`. Both `trim` and `\s` use the ECMAScript whitespace set.
- `Conversation` holds the message records, `find`, and the store's de-duplication invariant. That invariant is at most one translation per target language and at most one summary per message.
- `Provider` represents each browser service call only by what it settles to: a string, a falsy value, or a thrown error with its message. The summarizer's `Promise.race` is represented by the timer winning.

Each asynchronous handler is split at its `await`:

- A `Begin…` method runs the guards, raises the busy flag and clears the error.
- A `Complete…` method receives the service outcome, then merges the result or reports the error, and resets the flags.

Any other method may run in between. For example, `ClearChat` may run between the two halves; `MergeIntoMissingIdIsNoop` shows that the late merge is then harmless.

The main results:

- Every merge keeps the store duplicate-free, and merges are idempotent.
- The legacy `App` merge breaks this: translating twice stores two translations for one language (`RepeatedTranslateDuplicates`).
- `split(/\s+/)` undoes a join of non-blank words by whitespace gaps (`SplitJoinWords`). So the word count of such a text is its number of words, and the summarization threshold rejects 150 words and accepts 151.
- Enabled buttons lead exactly into the handlers' start paths.

Three behaviours of the code are easy to miss:

- **The timer's error does not get the timeout advice.** The summarizer's own 30-second timer rejects with "Summarization timed out". That message contains neither "GPU" nor "timeout", so it is reported through the raw branch. It is therefore reported as `Summarization failed: Summarization timed out`, not with the timeout advice (`Summarization.TimeoutReportedRaw`).
- **No handler refuses a second request while one is in flight.** The only such guard is the buttons' `disabled` condition (`MessageControls.TranslateEnabledStarts`, `MessageControls.SummarizeEnabledStarts`). The merge-time re-check is what keeps results duplicate-free.
- **Empty input is not an error in `AppProvider`.** `AppProvider` ignores input that trims to nothing; it sets no error. Only the legacy `App` reports "Please enter some text".

## Model

| member | source | states |
|---|---|---|
| JsText.TrimStart | src/utils/summarization.js:2 | the result is a suffix of the input, begins with a non-space, and everything dropped is whitespace |
| JsText.TrimEnd | src/utils/summarization.js:2 | the result is a prefix of the input, ends with a non-space, and everything dropped is whitespace |
| JsText.Trim | src/utils/summarization.js:2 | the trimmed text is no longer than the input and starts and ends with a non-space |
| JsText.TrimIsInnerSlice | src/utils/summarization.js:2 | `s.trim()` is a contiguous slice of the text with only whitespace before and after it |
| JsText.TrimEmptyIffBlank | src/context/AppContext.jsx:58 | `!s.trim()` holds exactly when the text is all whitespace, the test both send handlers use |
| JsText.Split | src/utils/summarization.js:2 | `split(/\s+/)` yields at least one piece and no piece contains whitespace |
| JsText.WordCount | src/utils/summarization.js:2 | `text.trim().split(/\s+/).length`, never less than one |
| JsText.SplitAfterWord | src/utils/summarization.js:2 | a word followed by text is glued onto the first piece of that text's split |
| JsText.SplitAfterGap | src/utils/summarization.js:2 | a whitespace run before a word-initial text becomes one empty piece ahead of that text's pieces |
| JsText.TrimStartOfGap | src/utils/summarization.js:2 | trimming the front of a whitespace run followed by a word leaves the word onward |
| JsText.SplitWordGapRest | src/utils/summarization.js:2 | a word, a whitespace run and a word-initial rest split into that word followed by the rest's pieces |
| JsText.SplitJoinWords | src/utils/summarization.js:2 | splitting non-blank words joined by whitespace gaps gives back exactly those words |
| JsText.TrimOfTrimmed | src/utils/summarization.js:2 | a text that begins and ends with a word is unchanged by `trim` |
| JsText.WordCountOfWords | src/components/MessageControls.jsx:18-20 | the word count of n well-separated words is n |
| JsText.WordCountOfBlank | src/components/MessageControls.jsx:18-20 | an empty or whitespace-only text counts as one word |
| JsText.IncludesAt | src/utils/summarization.js:62-65 | `includes` holds exactly when the substring occurs at some position |
| JsText.Includes | src/utils/summarization.js:62-65 | `includes`: the substring starts the text or occurs in its tail; `IncludesAt` gives its positional meaning |
| JsText.NotIncluded | src/utils/summarization.js:62-65 | a substring with a character that never lines up at any position is not included |
| Conversation.FindIndex | src/context/AppContext.jsx:83 | `find` by id gives the first message with that id, or none exactly when no message has it |
| Conversation.HasTranslation | src/context/AppContext.jsx:104-108 | `processed.some` for a translation into the target language: false exactly when such a translation clashes with nothing stored |
| Conversation.HasSummary | src/context/AppContext.jsx:158 | `processed.some` for a summary: false exactly when a summary clashes with nothing stored |
| Conversation.AppendKeepsDuplicateFree | src/context/AppContext.jsx:104-121 | appending a result that clashes with none present keeps a message duplicate-free |
| Conversation.UniqueTranslation | src/context/AppContext.jsx:104-109 | in a duplicate-free message a target language names at most one translation |
| Summarization.CheckTextLength | src/utils/summarization.js:1-3 | more than `minWords` whitespace-separated tokens in the trimmed text; blank text is one token, so a bound below one always passes |
| Summarization.CaughtError | src/utils/summarization.js:60-75 | a caught error is reported behind the failure prefix: GPU advice first, then timeout advice, else the raw message |
| Summarization.SummarizeText | src/utils/summarization.js:5-76 | unavailable API, timer, thrown error and empty summary each give their failure; success exactly when a non-empty summary arrives, returned verbatim |
| Summarization.CheckTextLengthOfWords | src/utils/summarization.js:1-3 | a text of n well-separated words passes the length check exactly when n exceeds the minimum |
| Summarization.DefaultThreshold | src/utils/summarization.js:1-3 | with the default minimum, 150 words are rejected and 151 accepted |
| Summarization.BlankTextTooShort | src/utils/summarization.js:1-3 | blank text never passes a positive minimum |
| Summarization.TimerMessageNoGpu | src/utils/summarization.js:62-64 | the timer's message does not contain "GPU" |
| Summarization.TimerMessageNoTimeout | src/utils/summarization.js:65-66 | the timer's message does not contain "timeout" |
| Summarization.TimeoutReportedRaw | src/utils/summarization.js:40-69 | a timed-out summary is reported with the timer's raw message, never with the timeout advice |
| Summarization.FailureMessages | src/utils/summarization.js:8-74 | every failure is the unavailable-API error, the empty-summary error, or carries the failure prefix |
| Translation.DetectLanguage | src/utils/translation.js:1-11 | a language is detected exactly when the result list is present and non-empty, and it is the first candidate's; a throw gives none |
| Translation.TranslatorPresent | src/utils/translation.js:20 | `"ai" in window && "translator" in window.ai`: a translator is only ever found under `window.ai` |
| Translation.SessionResult | src/utils/translation.js:50-67 | a session answer succeeds exactly when it is a non-empty string; otherwise the empty-result error or the thrown message verbatim |
| Translation.TranslateText | src/utils/translation.js:13-68 | a missing translator, then equal languages, are rejected before any session; otherwise the session's answer decides |
| Translation.RejectedWithoutSession | src/utils/translation.js:20-34 | a rejected request does not depend on what the translator would answer |
| Translation.SuccessIsProducedText | src/utils/translation.js:50-61 | a successful translation is the translator's non-empty text |
| ApiInitialization.CheckBrowserSupport | src/utils/apiInitialization.js:1-12 | unsupported exactly when `window.ai` is absent, with the browser error; no error otherwise |
| ApiInitialization.CheckSummarizerAvailability | src/utils/apiInitialization.js:14-34 | missing summarizer gives "no" with its error; an answer is passed through with no error; a throw gives "error" with the prefixed message |
| ApiInitialization.ProbeErrorMessages | src/utils/apiInitialization.js:16-33 | every probe error names the missing summarizer or carries the status prefix |
| AppContext.GetLanguageName | src/context/AppContext.jsx:193-203 | a listed code gives its mapped name and any other code gives itself |
| AppContext.LanguageNames | src/context/AppContext.jsx:184-203 | the name map agrees with the language list, and an unlisted code names itself |
| AppContext.TranslateInto | src/context/AppContext.jsx:102-123 | a message with the id ends up with a translation for the target, appended only when absent; any other message is unchanged; id, text and language are kept |
| AppContext.MergeTranslation | src/context/AppContext.jsx:101-125 | the store keeps its length and every message is the translation callback applied to it |
| AppContext.SummarizeInto | src/context/AppContext.jsx:156-172 | a message with the id ends up with a summary, appended only when absent; any other message is unchanged; id, text and language are kept |
| AppContext.MergeSummary | src/context/AppContext.jsx:155-174 | the store keeps its length and every message is the summary callback applied to it |
| AppContext.MergeTranslationKeepsDuplicateFree | src/context/AppContext.jsx:101-125 | a translation merge keeps the store duplicate-free |
| AppContext.MergeSummaryKeepsDuplicateFree | src/context/AppContext.jsx:155-174 | a summary merge keeps the store duplicate-free |
| AppContext.MergeTranslationIdempotent | src/context/AppContext.jsx:104-109 | a second translation merge for the same message and language changes nothing |
| AppContext.MergeSummaryIdempotent | src/context/AppContext.jsx:158-159 | a second summary merge for the same message changes nothing |
| AppContext.MergeIntoMissingIdIsNoop | src/context/AppContext.jsx:101-125 | a merge into an id no longer in the store leaves it unchanged |
| AppContext.TranslateGate | src/context/AppContext.jsx:82-84 | a translation starts exactly when the message exists and is not already in the selected language, capturing its text and both languages |
| AppContext.SummarizeGate | src/context/AppContext.jsx:134-143 | absent message, too few words and start are told apart exactly; a started request carries text that passes the length check |
| AppContext.AppProvider.constructor | src/context/AppContext.jsx:21-30 | the initial state: empty store and input, "en", no error, flags down, status "checking", no progress |
| AppContext.AppProvider.InitializeApi | src/context/AppContext.jsx:33-50 | no `window.ai` gives "unsupported" with the browser error; otherwise the status is the probe's, and the error changes only when the probe reports one |
| AppContext.AppProvider.SetInputText | src/context/AppContext.jsx:22 | the input becomes the given text |
| AppContext.AppProvider.SetSelectedLanguage | src/context/AppContext.jsx:23 | the selected language becomes the given code |
| AppContext.AppProvider.OnProgress | src/context/AppContext.jsx:89-91 | the download progress becomes the reported record |
| AppContext.AppProvider.BeginSend | src/context/AppContext.jsx:57-60 | all-whitespace input changes nothing; otherwise the error is cleared and the input sent for detection |
| AppContext.AppProvider.CompleteSend | src/context/AppContext.jsx:61-76 | no language: error set, store and input unchanged; a language: exactly one new message with no results, input cleared; store stays valid |
| AppContext.AppProvider.BeginTranslate | src/context/AppContext.jsx:82-87 | the request is the translate guard's; only a started request raises the flag and clears the error |
| AppContext.AppProvider.CompleteTranslate | src/context/AppContext.jsx:93-131 | success merges without duplicating; failure only sets the adapter's error; flag and progress reset; store stays duplicate-free |
| AppContext.AppProvider.BeginSummarize | src/context/AppContext.jsx:134-146 | absent message changes nothing; too short sets the length error only; otherwise the flag is raised and the error cleared |
| AppContext.AppProvider.CompleteSummarize | src/context/AppContext.jsx:152-180 | success merges unless a summary exists; failure only sets the adapter's error; flag and progress reset; store stays duplicate-free |
| AppContext.AppProvider.ClearChat | src/context/AppContext.jsx:205-209 | store, input and error are emptied and nothing else changes |
| MessageControls.GetWordCount | src/components/MessageControls.jsx:18-20 | the count is at least one and exceeds a minimum exactly when `checkTextLength` passes for it |
| MessageControls.SummarizeShown | src/components/MessageControls.jsx:66 | a rendered summarize button means an English message that passes `handleSummarize`'s length guard |
| MessageControls.TranslateDisabled | src/components/MessageControls.jsx:49-53 | the translate button is disabled while a translation is in flight; enabled means the status probe is done and another language is selected |
| MessageControls.SummarizeDisabled | src/components/MessageControls.jsx:69-75 | the summarize button is disabled while a summary is in flight; enabled means the status is none of "no", "unsupported", "error", "checking" |
| MessageControls.OptionDisabled | src/components/MessageControls.jsx:41 | a disabled language option (the message's own language) keeps the translate button disabled whatever the other flags |
| MessageControls.ShownPassesLengthGuard | src/components/MessageControls.jsx:66 | whenever the summarize button is shown, the summarizer's length guard passes |
| MessageControls.SummarizeShownForWords | src/components/MessageControls.jsx:66 | for n well-separated words the button is shown exactly when n > 150 and the text is English |
| MessageControls.TranslateEnabledStarts | src/components/MessageControls.jsx:47-53 | an enabled translate button means nothing in flight, probe done, the handler starts, and the adapter's same-language check cannot fire |
| MessageControls.SummarizeEnabledStarts | src/components/MessageControls.jsx:66-75 | a shown and enabled summarize button means nothing in flight and the handler starts |
| MessageControls.OptionDisabledMatchesGuard | src/components/MessageControls.jsx:38-42 | a language option is disabled exactly when choosing it would stop the translate handler at its guard |
| LegacyApp.DetectLanguage | src/App.jsx:53-69 | uninitialised services throw; a present, non-empty result gives the first language; otherwise the prefixed "No language detected" or provider message |
| LegacyApp.TranslateOutcome | src/App.jsx:116-147 | success exactly for a non-empty translation, returned verbatim; otherwise the prefixed thrown or no-result message |
| LegacyApp.AppendInto | src/App.jsx:128-142 | a message with the id gains the translation whether or not it holds one for that language; any other message is unchanged |
| LegacyApp.AppendTranslation | src/App.jsx:127-144 | the store keeps its length and every message is the legacy callback applied to it |
| LegacyApp.RepeatedTranslateDuplicates | src/App.jsx:127-144 | translating a message to one language twice stores two translations for it, breaking duplicate-freedom |
| LegacyApp.App.constructor | src/App.jsx:11-16 | the initial state: empty store and input, "en", no error, not loading, not initialised |
| LegacyApp.App.InitializeAi | src/App.jsx:19-51 | each missing piece or failed init sets its own prefixed error; only full success marks the services initialised, which is never undone |
| LegacyApp.App.BeginSend | src/App.jsx:71-83 | all-whitespace input, then uninitialised services, are errors; otherwise loading starts with the error cleared |
| LegacyApp.App.CompleteSend | src/App.jsx:85-101 | a detected language appends one new message and clears the input; a detection error only sets the error; loading stops |
| LegacyApp.App.BeginTranslate | src/App.jsx:104-114 | uninitialised services are an error; an absent message changes nothing; otherwise loading starts, with no same-language check |
| LegacyApp.App.CompleteTranslate | src/App.jsx:116-150 | success appends to every message with the id; failure only sets the prefixed error; loading stops |

## Left out

- Rendering is not modelled: the JSX markup, the loading spinner, class names, `ChatBox`, `InputText`, `Header` and `EmptyChat`.
- Theme state is not modelled: `darkMode`, `matchMedia` and `toggleDarkMode` only choose colours.
- `useAppContext` is not modelled; its error when used outside the provider is React wiring.
- The browser services themselves are foreign code and are not modelled: `create`, `detect`, `translate`, `summarize`, `capabilities` and `init`. Each is represented only by what it settles to. That is why the texts sent to them are not parameters of the adapter functions.
- Configuration objects passed to the services are not modelled, because they only reach foreign code: summary type, format, length, CPU preferences and resource constraints.
- The 30-second timer is represented by its outcome (`TimedOut`); time itself is not modelled.
- A summarizer `create` that never settles is not modelled. It happens before the race, so it is not covered by the timer: the handler simply never completes and no `Complete…` call happens.
- Interleavings are modelled only at the `await` boundaries (the `Begin…`/`Complete…` split). Progress events are a separate `OnProgress` call, which may run at any time.
- The `percentage` of a progress event is not computed: `Math.round` on a floating-point ratio is outside the model. The record is stored as reported.
- Message ids come from `Date.now()`. They are parameters of `CompleteSend`, and nothing is claimed about their uniqueness. `find` picks the first match, while the merges update every message with the id.
- Thrown values without a `message` are not modelled. Every thrown error carries a string message; an undefined message would itself make the summarizer's `includes` throw.
- AppContext's "Failed to process message" catch is not modelled. `detectLanguage` catches everything and returns `null`, so this branch cannot be reached.
- `CheckSummarizerAvailability` is modelled only for a present `window.ai`, which is the only way `initializeAPI` calls it.
- A detector candidate is always taken to carry a `detectedLanguage` string; a candidate object without one is not modelled.
- AppContext.GetLanguageName: keys inherited from `Object.prototype` (such as "toString") are not modelled. The map holds only the six listed codes.
- LegacyApp.App.CompleteSend: `detectLanguage` reads `isAIInitialized` from the handler's render. The model reads the current field instead. These agree because the field only ever changes from false to true, and `BeginSend` required it to be true.
