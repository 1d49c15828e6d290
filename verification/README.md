# VividMotion studio: generation lifecycle and history bookkeeping

A Dafny model of the two pieces of logic in the VividMotion AI video studio
that go beyond rendering.

- **The generation service** (`services/geminiService.ts`, `generateAIVideo`)
  works in four steps:
  - It emits the first progress string.
  - It builds one request from the video configuration and submits it.
  - It polls the long-running operation, with one progress string per
    query. It stops when the operation is done, when 60 queries have been
    made, or when a query fails.
  - It turns the finished operation into a download.

  A query that fails with the phrase "Requested entity was not found" is
  rethrown as `API_KEY_RESET`. Any other error passes through unchanged.
  A run can end in one of three more ways:
  - still not done after the loop: "Generation timed out. Please try again.";
  - done without a non-empty link: "Could not retrieve video link.";
  - done with a link: the bytes are fetched from `link + "&key=" + apiKey`.
- **The studio page** (`App.tsx`) keeps the history gallery, the busy flag,
  the progress line and the API-key flag:
  - a new video is put first in the history;
  - deleting filters entries out by id;
  - both changes are written to storage;
  - a generation ends not busy, whatever happened;
  - a failure either clears the key flag (message exactly `API_KEY_RESET`)
    or raises an alert.

Layout:

- `types.dfy`: module `Types`, the records of `types.ts`. Aspect ratio and
  resolution are two-value datatypes.
- `text.dfy`: module `Text`, the JavaScript string operations the service
  relies on. These are `split` with a one-character separator (with its
  inverse `Join`) and `includes`.
- `gemini_service.dfy`: module `GeminiService`.
  - The remote service is an oracle: a `Remote<Operation>` for the
    submission, a sequence of them for the status queries, and a
    `Remote<string>` for the download.
  - `GenerateAIVideo` is a method. Its postcondition equates the run with
    the function `Generate`. Its three steps are methods of their own,
    each proved against a function: `BuildRequest` against `RequestFor`,
    `PollOperation` (the source's `while` loop) against `PollLoop`, and
    `FinishRun` against `Settle`.
  - The lemmas about `Generate` state how each kind of run ends.
  - The model counts the milliseconds the source would have waited
    between queries.
- `app.dfy`: module `App`.
  - The filter `WithoutId` is a pure function with its lemmas.
  - The class `Studio` holds the page's state; its methods are the
    page's handlers. `HandleGenerate` ends with `FinishGeneration`, the
    part that runs once the generator's promise has settled.

Details of the code the model keeps:

- The image bytes are `image.split(',')[1]`, the second comma-separated
  field. For a data URL with exactly one comma that is everything after
  the comma (`DataUrlSendsPayload`). With no comma it is `undefined`
  (`NoCommaSendsNoBytes`).
- JavaScript truthiness is kept in two places:
  - an empty `image` string adds no image to the request;
  - an empty link is treated like a missing one.
- The media type is always `image/png`, whatever type the uploaded file had.

## Model

| member | source | states |
|---|---|---|
| `Text.Split` | services/geminiService.ts:47 | `split(',')` always yields at least one piece, one more than the number of separators |
| `Text.CountOfPositive` | services/geminiService.ts:47 | a separator is counted exactly when it occurs, so `split(',')` has a second field exactly when the string has a comma |
| `Text.FieldAt` | services/geminiService.ts:47 | `split(',')[i]` is defined exactly when the string has at least `i` separators, and the field never contains the separator |
| `Text.SplitWithoutSeparator` | services/geminiService.ts:47 | a string without the separator splits into itself alone |
| `Text.SplitAtFirst` | services/geminiService.ts:47 | splitting `head , tail` gives `head` followed by the pieces of `tail` |
| `Text.JoinSplit` | services/geminiService.ts:47 | joining the pieces with the separator gives back the original string |
| `Text.SplitPiecesFree` | services/geminiService.ts:47 | no piece contains the separator |
| `Text.Contains` | services/geminiService.ts:63 | `includes` finds only phrases no longer than the string, and always finds the empty phrase |
| `Text.ContainsIffOccurs` | services/geminiService.ts:63 | `includes` holds exactly when some window of the message equals the phrase |
| `Text.ContainsEmbedded` | services/geminiService.ts:63 | a phrase placed anywhere in a string is found by `includes` |
| `GeminiService.ProgressAt` | services/geminiService.ts:29 | every emission is one of the eight progress messages |
| `GeminiService.ProgressLog` | services/geminiService.ts:27-31 | the k-th progress emission (0-based) is message number k mod 8 |
| `GeminiService.ProgressCycles` | services/geminiService.ts:8-17 | emission k + 8 repeats emission k, so the ninth emission is the first message again |
| `GeminiService.IsEntityNotFound` | services/geminiService.ts:62-64 | a failed query means a lost job exactly when the phrase "Requested entity was not found" stands somewhere in its message |
| `GeminiService.PollErrorMessage` | services/geminiService.ts:62-66 | the rethrown message is `API_KEY_RESET` exactly when the job was lost (or the message already was `API_KEY_RESET`); otherwise it is the query's own message |
| `GeminiService.RequestFor` | services/geminiService.ts:35-50 | the request carries image bytes only for a configured image, exactly when that image has a comma, and the bytes themselves hold no comma |
| `GeminiService.LinkOf` | services/geminiService.ts:74-75 | a link is found only on a done operation whose uri is present and non-empty, and it is that uri; otherwise the operation is pending or its uri is absent or empty |
| `GeminiService.DownloadUrl` | services/geminiService.ts:80 | the download URL is the link, then `&key=`, then the API key, with nothing lost or added |
| `GeminiService.PollLoop` | services/geminiService.ts:54-68 | the loop never makes more than 60 queries; it stops only when the operation is done, the budget is spent, or the last query threw |
| `GeminiService.Generate` | services/geminiService.ts:19-88 | a run makes at most 60 queries; it emits exactly one more progress string than it makes queries, each following the 8-message cycle; it waits 10 s per query; it resolves only with the download's own answer, after a download was requested |
| `GeminiService.BuildRequest` | services/geminiService.ts:35-50 | the request the code assembles step by step is the one `RequestFor` specifies |
| `GeminiService.PollOperation` | services/geminiService.ts:54-68 | the `while` loop stops exactly where `PollLoop` does, having emitted one progress string and waited 10 s per query |
| `GeminiService.FinishRun` | services/geminiService.ts:70-87 | the code after the loop settles the run exactly as the function `Settle` does |
| `GeminiService.GenerateAIVideo` | services/geminiService.ts:19-88 | the loop over the oracle computes exactly the run `Generate` specifies, with at most 60 queries and queries + 1 progress strings |
| `GeminiService.PendingPrefix` | services/geminiService.ts:55-68 | "still running" replies only advance the attempt counter |
| `GeminiService.PollLoopReadsOnlyItsQueries` | services/geminiService.ts:55-68 | the loop's result depends only on the replies to the queries it makes |
| `GeminiService.RunReadsOnlyItsQueries` | services/geminiService.ts:55-68 | a run depends only on the replies to queries it made, so nothing is queried after it stops, whatever budget remains |
| `GeminiService.SubmitErrorPropagates` | services/geminiService.ts:52 | a failed submission rejects with its own message, after one progress string and no query |
| `GeminiService.DoneAtSubmission` | services/geminiService.ts:54-80 | an operation done at submission is never queried (one progress string, no wait); without a non-empty link it rejects with "Could not retrieve video link." and fetches nothing; with one it fetches `link + "&key=" + apiKey` and settles as the download does |
| `GeminiService.NeverDoneTimesOut` | services/geminiService.ts:70-72 | an operation never done rejects with the timeout message after exactly 60 queries, 61 progress strings and 600000 ms, with no download |
| `GeminiService.EntityNotFoundResetsKey` | services/geminiService.ts:60-65 | a query failing with the not-found phrase rejects with `API_KEY_RESET` at that query, whatever budget remains |
| `GeminiService.OtherPollErrorPropagates` | services/geminiService.ts:66 | any other failing query rejects with its message unchanged, at that query |
| `GeminiService.NotFoundPhraseRecognised` | services/geminiService.ts:63-64 | the phrase anywhere in a message classifies it as a reset key |
| `GeminiService.DoneAtQuery` | services/geminiService.ts:74-80 | a run finished at query n+1 without a non-empty link rejects with "Could not retrieve video link." and fetches nothing; with a link it fetches `link + "&key=" + apiKey` and settles as the download does |
| `GeminiService.AbortCarriesLastQuery` | services/geminiService.ts:60-66 | an aborted loop carries the rethrown error of the query that stopped it |
| `GeminiService.FinishedReadsAnswers` | services/geminiService.ts:55-68 | a loop that finished read only answers, and ends on the operation the last answer (or the submission) reported |
| `GeminiService.RejectionsAreAccountedFor` | services/geminiService.ts:52-87 | a rejected run has exactly one of five causes, each with its condition: the submission threw (its message, no query); the last query threw (its message rethrown, no download); all 60 queries answered still running (timeout); all queries answered and the job was done without a non-empty link (missing link); or a link was found, its download URL fetched, and the fetch threw (its message). Nothing swallowed, nothing invented |
| `GeminiService.RequestCarriesConfig` | services/geminiService.ts:35-50 | the request asks for one video, copies prompt, resolution and aspect ratio, carries an image exactly when a non-empty one is set, typed `image/png` |
| `GeminiService.DataUrlSendsPayload` | services/geminiService.ts:45-50 | a data URL `prefix,payload` sends exactly `payload` as image bytes |
| `GeminiService.NoCommaSendsNoBytes` | services/geminiService.ts:47 | an image string without a comma sends `undefined` bytes |
| `App.TrimStart` | components/VideoGenerator.tsx:31 | trimming the front drops only white space and leaves a suffix that starts with no white space |
| `App.TrimEnd` | components/VideoGenerator.tsx:31 | trimming the back drops only white space and leaves a prefix that ends with no white space |
| `App.IsBlank` | components/VideoGenerator.tsx:31 | a prompt is refused exactly when every character of it is white space as `trim` (`App.IsTrimmed`) counts it |
| `App.WithoutId` | App.tsx:85 | the filtered history is no longer than before and holds no entry with the deleted id |
| `App.WithoutIdKeepsOthers` | App.tsx:85 | an entry survives deletion exactly when it was there and has another id |
| `App.WithoutIdConcat` | App.tsx:85 | deletion works piecewise over a concatenation, so the kept entries stay in order |
| `App.WithoutAbsentId` | App.tsx:83-89 | deleting an id no entry carries leaves the history unchanged |
| `App.DeleteUndoesSave` | App.tsx:40-45 | deleting the entry just saved under a fresh id restores the earlier history |
| `App.Studio.constructor` | App.tsx:13-16 | a new page has an empty history, is not busy, has an empty progress line and no key answer yet |
| `App.Studio.RestoreHistory` | App.tsx:18-26 | the mount effect shows the saved history when there is one |
| `App.Studio.CheckApiKey` | App.tsx:28-36 | the key flag takes the studio hook's answer, or true when the hook is absent |
| `App.Studio.HandleApiKeySuccess` | App.tsx:79-81 | picking a key sets the key flag to true and changes nothing else |
| `App.Studio.SaveToHistory` | App.tsx:40-46 | the new video goes first, the old entries keep their order, storage holds the new list |
| `App.Studio.DeleteVideo` | App.tsx:83-89 | the history keeps exactly the entries with another id, and storage holds the new list |
| `App.Studio.StartGeneration` | App.tsx:48-50 | a generation starts busy with the line "Starting generation..." |
| `App.Studio.FinishGeneration` | App.tsx:53-76 | once the run has settled: the line shows its last progress string; success saves the record first in history and storage; `API_KEY_RESET` clears the key flag; any other message raises "Generation failed: " + message; the page ends not busy |
| `App.Studio.HandleGenerate` | App.tsx:48-77 | success saves a record with the generator's URL and the config's prompt, aspect ratio and resolution; `API_KEY_RESET` clears the key flag without an alert; any other message raises "Generation failed: " + message; failures leave history and storage alone; the page always ends not busy, showing the run's last progress string |

## Left out

- The ten-second `setTimeout` between queries: a query is one loop iteration, and the wait is counted in `waitedMs`.
- The GenAI client (`generateVideos`, `getVideosOperation`): foreign library calls, replaced by the sequence of replies. The model requires a reply for each of the 60 possible queries.
- `fetch`, `blob` and `URL.createObjectURL`: network and DOM I/O. The download's reply is a parameter; its answer stands for the object URL.
- `process.env.API_KEY` is the `apiKey` parameter. An unset key would make the literal text "undefined", which is not modelled separately.
- Errors are modelled by their message strings. An error value without a `message` (`undefined`) is not modelled.
- `localStorage`, `JSON.parse`/`JSON.stringify`: storage is one cell holding the history list. A saved value that fails to parse is not modelled.
- `crypto.randomUUID` and `Date.now`: the id and the timestamp are parameters of `HandleGenerate`.
- `window.aistudio`: the hook's answer is the parameter of `CheckApiKey`. Its asynchronous timing is not modelled.
- Promises and React's state batching: the handlers run to completion one after another. The progress callbacks are summarised by the last string they leave on the progress line.
- `console.error` logging.
- `types.ts` `GenerationStatus` and `GenerationProgress`: the logic never uses them.
- The components' rendering (`components/*.tsx`). The one rule kept is that the form submits only a prompt that is not blank after `trim`. It is a precondition of `HandleGenerate`.
