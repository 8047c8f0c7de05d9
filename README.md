# Modelia image generation studio, modelled in Dafny

Modelia is a single-page web app. A user uploads a PNG or JPG and types a prompt. They pick one of five styles and ask a mock image model for a generation. The app retries failed calls with exponential backoff. It can be cancelled. It keeps the five most recent generations in the browser's local storage.

This project models the parts of the app that decide outcomes:

- **Retry orchestrator** (`Api`, api.dfy).
  - `generateImageWithRetry` is a method with a `while` loop.
  - It is proved against the declarative `RetryOutcome` predicate. That predicate fixes the result, the number of client calls and the list of awaited waits.
  - The single-attempt client is an oracle. For each attempt number it gives a returned result or a thrown value.
  - The abort signal says from which loop head on it is seen set.
  - The mock client `generateImage` is a function of its random draws.
- **Bounded persisted history** (`LocalStorage`, local_storage.dfy).
  - The snapshot under the history key is a JSON-like value: absent, empty text, unparsable text, a non-array, or an array of items. An item is null, a non-object, or an object whose five fields may each be missing or not a string.
  - Loading is a function: absent or non-array gives `[]`, otherwise a filter.
  - Saving and clearing are methods of the `HistoryStore` class. They replace its one field.
  - Storage errors are flags whose effect is swallowed.
- **Upload check and mock image URL** (`ImageUtils`, image_utils.dfy). These are pure functions.
- **Page state machine** (`Page`, page.dfy).
  - `Home` is a class that holds the `AppState` value and the abort controller ref.
  - There is one method per handler. `handleGenerate` is split at its await into `BeginGenerate` and `FinishGenerate`, so a cancel can run in between.
  - The record updates a settled generation makes are the pure functions `Started` and `Settled`.
- **Shared records and JavaScript string operations** (`Types` and `Strings`): `trim` with ECMAScript's whitespace set, `startsWith`, and decimal rendering inside template literals.

Two behaviours of the code a reader might not expect. The model follows the code:

- **In-flight guard.** `handleGenerate` does not refuse while a generation is running. Only `canGenerate`, which disables the button, excludes that. `BeginGenerate` therefore starts a new generation whatever `isGenerating` says.
- **Waits are not abortable.** The backoff wait in the retry loop cannot be cancelled. An abort is noticed only at the head of the next attempt.

## Model

| member | source | states |
|---|---|---|
| Types.StyleName | src/types/index.ts:33 | every style travels as one of the five names |
| Types.StyleNameInjective | src/types/index.ts:33 | distinct styles have distinct names |
| Strings.TrimStart | src/app/page.tsx:55 | the result is a suffix; all that was cut is whitespace; it does not start with whitespace |
| Strings.TrimEnd | src/app/page.tsx:55 | the result is a prefix; all that was cut is whitespace; it does not end with whitespace |
| Strings.LeadingWhitespace | src/app/page.tsx:55 | counts exactly the whitespace characters the string starts with |
| Strings.Trim | src/app/page.tsx:55 | empty exactly when every character is JavaScript whitespace; otherwise neither end is whitespace |
| Strings.TrimIsSlice | src/app/page.tsx:55 | the trimmed string is the slice of the string that starts after its leading whitespace |
| Strings.StartsWith | src/utils/imageUtils.ts:41 | the string begins with the given prefix |
| Strings.NatToString | src/utils/imageUtils.ts:74 | at least one digit, digits only, no leading zero, one digit exactly below 10 |
| Strings.DecimalRoundTrip | src/utils/imageUtils.ts:74 | reading the decimal text back gives the number |
| Strings.NatToStringInjective | src/utils/imageUtils.ts:74 | distinct numbers render differently |
| Strings.IntToString | src/utils/api.ts:100 | a non-negative number renders as its decimal digits; a negative one as a minus sign and then the magnitude's digits |
| ImageUtils.ValidateImageFile | src/utils/imageUtils.ts:39-58 | valid iff the type is png, jpeg or jpg and size is at most 10 MiB; valid iff there is no error; each failed check in order gives its own message |
| ImageUtils.TypeCheckedBeforeSize | src/utils/imageUtils.ts:41-43 | a non-image type gets the same verdict whatever its size |
| ImageUtils.SizeBoundInclusive | src/utils/imageUtils.ts:46-55 | exactly 10485760 bytes is accepted, one more is refused; image/gif is an unsupported type |
| ImageUtils.MockSeed | src/utils/imageUtils.ts:73 | for a draw in [0, 1) the seed is the floor of the draw times 10000, so at most 9999 |
| ImageUtils.GenerateMockImageUrl | src/utils/imageUtils.ts:70-75 | the URL is the picsum prefix, the seed's digits and "/512/512" |
| ImageUtils.MockUrlDeterminesSeed | src/utils/imageUtils.ts:70-75 | equal URLs come from equal seeds |
| Api.Succeeded | src/utils/api.ts:69 | an outcome succeeds iff it is a returned result whose `success` is set |
| Api.GenerateImage | src/utils/api.ts:15-40 | fails iff the roll is below 0.2, and then only with "Model overloaded"; a success carries the request's prompt and style, the mock URL of the seed drawn from its roll, and an id starting "gen_" |
| Api.Pow2 | src/utils/api.ts:78 | `Math.pow(2, n)` for a whole n: at least 1, and by Pow2Monotone growing with n |
| Api.Min | src/utils/api.ts:77-80 | `Math.min`: at most each argument, and equal to one of them |
| Api.BackoffDelay | src/utils/api.ts:77-80 | the wait is at most maxDelay and at most base times 2^(k-1), and equals one of them |
| Api.Pow2Monotone | src/utils/api.ts:78 | powers of two grow with the exponent |
| Api.BackoffMonotone | src/utils/api.ts:77-80 | with a non-negative base the waits never shrink from attempt to attempt and never pass the cap |
| Api.DefaultBackoffSchedule | src/utils/api.ts:47-51 | the defaults wait 1000, 2000, 4000, then 8000 and 8000 |
| Api.GenerateImageWithRetry | src/utils/api.ts:45-102 | the run meets RetryOutcome: at most maxAttempts calls, each after a clear abort check, all failing but the last; one wait after each failed non-final attempt, the k-th being BackoffDelay(k); it ends in a returned success, the abort message, or the exhaustion message with the count and the last error |
| Api.AbortedAt | src/utils/api.ts:59 | the check at the head of attempt k sees the signal set iff the signal was first seen at or before k, so once set it stays set |
| Api.LastError | src/utils/api.ts:55-86 | `lastError` after the calls so far all failed: empty before the first call, then the last call's failure message |
| Api.FailureMessage | src/utils/api.ts:73-86 | a returned failure leaves its message, a thrown Error its message, anything else thrown "Unknown error" |
| Api.ExhaustedMessage | src/utils/api.ts:98-101 | "Failed after ", the attempt count, " attempts. Last error: " and the last error |
| Api.RetryOutcome | src/utils/api.ts:45-102 | what a run promises for its result, calls and waits, as listed for GenerateImageWithRetry |
| Api.RetryOutcomeUnique | src/utils/api.ts:45-102 | for one configuration, client and signal the result, call count and waits are determined |
| Api.CallsDetermined | src/utils/api.ts:57-71 | no run over the same inputs stops earlier than another |
| Api.AbortBeforeFirstAttempt | src/utils/api.ts:57-64 | a signal set before the loop gives no call, no wait and "Request aborted" |
| Api.AbortStopsCalls | src/utils/api.ts:57-64 | a signal seen at attempt k means fewer than k calls and "Request aborted" when nothing earlier succeeded |
| Api.SuccessShortCircuits | src/utils/api.ts:67-71 | a success is the last call, is returned unchanged, follows only failures, and is not followed by a wait |
| Api.FirstSuccessReturned | src/utils/api.ts:67-71 | the first success before any abort is the result after exactly k calls and k-1 waits |
| Api.AllAttemptsFail | src/utils/api.ts:73-101 | all attempts failing gives maxAttempts calls, one wait fewer, and the message naming maxAttempts and the last failure |
| Api.NonPositiveMaxAttempts | src/utils/api.ts:55-57 | maxAttempts at most 0: no call, no wait, and the message with an empty last error |
| Api.SingleAttemptNeverWaits | src/utils/api.ts:76-84 | one permitted attempt never waits |
| Api.ThrownRetriedLikeReturned | src/utils/api.ts:85-95 | thrown and returned failures with the same message lead to the same run |
| Api.TwoFailuresThenSuccess | src/utils/api.ts:45-102 | two failures, then a success, under the defaults: three calls, waits 1000 and 2000, the success returned |
| Api.MockRunOutcomes | src/utils/api.ts:15-40 | with the mock client a success echoes prompt and style; a failure is the abort or the exhaustion with "Model overloaded" |
| LocalStorage.IsGenerationItem | src/utils/localStorage.ts:42-50 | an item passes the filter iff it is a non-null object whose five fields are all strings |
| LocalStorage.Encode | src/utils/localStorage.ts:22 | a stored generation passes the load filter and reads back as itself |
| LocalStorage.EncodeToGeneration | src/utils/localStorage.ts:41-51 | a valid item is the stored form of the generation it reads as |
| LocalStorage.EncodeAll | src/utils/localStorage.ts:22 | the stored array has one item per generation, in order |
| LocalStorage.FilterGenerations | src/utils/localStorage.ts:41-51 | the load filter returns no more items than the array holds |
| LocalStorage.FilterIsSubsequence | src/utils/localStorage.ts:41-51 | the load result, written back, is a subsequence of the stored array |
| LocalStorage.FilterKeepsValid | src/utils/localStorage.ts:41-51 | every valid item is loaded |
| LocalStorage.FilterAppend | src/utils/localStorage.ts:41-51 | filtering a concatenation filters each part |
| LocalStorage.FilterKeepsAllOnlyIfValid | src/utils/localStorage.ts:41-51 | nothing is dropped iff every item is valid |
| LocalStorage.FilterEncoded | src/utils/localStorage.ts:22-51 | a written history reads back unchanged |
| LocalStorage.GetGenerationHistory | src/utils/localStorage.ts:31-56 | a failing read, an absent or empty snapshot, a parse error or a non-array loads as []; otherwise it is the filter of the array; as a function of the snapshot it writes nothing, so two reads in a row agree |
| LocalStorage.Take | src/utils/localStorage.ts:20 | at most n items, a prefix, all of them when there are n or fewer |
| LocalStorage.SavedSnapshot | src/utils/localStorage.ts:14-22 | the snapshot a save writes: g in front of the history as read now, cut to five, replacing what was there |
| LocalStorage.SaveShape | src/utils/localStorage.ts:12-22 | after a save the history is take(5, [g] + before): one to five items, g first, then the earlier ones in order |
| LocalStorage.SaveCleansSnapshot | src/utils/localStorage.ts:14-22 | after a save every stored item is valid and all of them load |
| LocalStorage.Reverse | src/utils/localStorage.ts:17 | reversal keeps the length |
| LocalStorage.ReverseAt | src/utils/localStorage.ts:17 | the i-th item of the reversal is the i-th from the end |
| LocalStorage.SavesKeepNewest | src/utils/localStorage.ts:12-22 | after a non-empty run of saves the history is the saved generations newest first, then what was stored before, cut to five |
| LocalStorage.SixSavesKeepFiveNewest | src/utils/localStorage.ts:17-20 | six saves leave the last five, newest first |
| LocalStorage.CorruptRecordDropped | src/utils/localStorage.ts:41-51 | a record missing its style between two valid ones is dropped, the others load in order |
| LocalStorage.HistoryStore.SaveGeneration | src/utils/localStorage.ts:12-26 | a failing write leaves the snapshot unchanged; otherwise it becomes the saved snapshot, whose history is take(5, [g] + before) with g first |
| LocalStorage.HistoryStore.ClearGenerationHistory | src/utils/localStorage.ts:61-67 | the snapshot is removed, so the history loads as []; a failing removal changes nothing |
| Page.PromptReady | src/app/page.tsx:55 | the guard of handleGenerate: an image is uploaded and the trimmed prompt is not empty |
| Page.CanGenerate | src/app/page.tsx:150 | the button's condition: the guard holds and nothing is generating |
| Page.Started | src/app/page.tsx:66-70 | a started generation: generating on and the error cleared, everything else kept |
| Page.ThrownMessage | src/app/page.tsx:110 | a rejected await shows an `Error`'s message, and "Failed to generate image" for anything else thrown |
| Page.Settled | src/app/page.tsx:83-113 | the state after the await: on success g shown, history g then the first four, form reset; on failure or rejection its message shown; generating off either way |
| Page.CanGenerateMeans | src/app/page.tsx:150 | the button is enabled iff an image is uploaded, some prompt character is not whitespace, and nothing is generating |
| Page.RequestFor | src/app/page.tsx:73-81 | the request carries the image's data URL, the untrimmed prompt and the style's name |
| Page.SuccessResetsForm | src/app/page.tsx:83-99 | a success shows g, makes the history g then the first four earlier entries, clears image, prompt and style, stops generating, and keeps the previous error |
| Page.FailureKeepsForm | src/app/page.tsx:100-113 | a failure shows its message and keeps image, prompt, style, history and current generation; the button is enabled again iff the guard held |
| Page.FailureMessageShown | src/app/page.tsx:100-113 | the page shows the orchestrator's message, except a thrown non-Error, which reads "Failed to generate image" |
| Page.MemoryMatchesStoredHistory | src/app/page.tsx:93 | [g] + first four of h equals take(5, [g] + h), the history saveGeneration writes |
| Page.Home.constructor | src/app/page.tsx:16-32 | the initial state with the history loaded from the store; it agrees with the store when the read succeeds |
| Page.Home.HandleImageUpload | src/app/page.tsx:34-40 | the image is set and the error cleared, nothing else changes |
| Page.Home.HandleImageError | src/app/page.tsx:42-44 | only the error changes |
| Page.Home.HandlePromptChange | src/app/page.tsx:46-48 | only the prompt changes |
| Page.Home.HandleStyleChange | src/app/page.tsx:50-52 | only the style changes |
| Page.Home.BeginGenerate | src/app/page.tsx:54-81 | without an image or with a blank prompt only the error is set and no request is issued; otherwise a fresh controller, generating on, error cleared, and the request for the current form |
| Page.Home.FinishGenerate | src/app/page.tsx:83-113 | the state settles as Settled says; only a success writes the store; a page that agreed with the store still does when storage works |
| Page.Home.HandleGenerate | src/app/page.tsx:54-114 | the guard, which changes only the error; otherwise the retry run under the defaults meeting RetryOutcome, its result settling the page, and the store written with the saved snapshot exactly on a success whose write works |
| Page.Home.HandleAbort | src/app/page.tsx:116-125 | with a controller: abort it, stop generating, show "Generation cancelled"; without one: nothing changes; a page that was generating always stops and shows the cancellation |
| Page.Home.HandleSelectGeneration | src/app/page.tsx:127-133 | shows the chosen generation and clears the error |
| Page.Home.HandleClearHistory | src/app/page.tsx:135-141 | the store is cleared unless the removal fails; the page's history is emptied either way |
| Page.Home.HandleRemoveImage | src/app/page.tsx:143-148 | only the image is dropped, which disables the button |
| Page.CancelThenSuccess | src/app/page.tsx:116-125 | a cancel during the await does not stop a success from being shown and saved at the head of the stored history; "Generation cancelled" stays beside it |

## Left out

- Timing. `delay` and `setTimeout` are not modelled as time. The orchestrator reports the delay values it would await.
- Randomness and the clock. `Math.random()`, `Date.now()` and `new Date().toISOString()` in `generateImage` and `generateMockImageUrl` are parameters: a `Draw` with the failure roll and the seed roll (both in [0, 1)), the clock value, the id suffix and the timestamp text. The base-36 id suffix is an opaque string.
- Async interleaving. The abort controller is reduced to the `AbortSignal` the loop sees at each attempt head. On the page it is a flag. Only the interleaving "cancel between the start and the end of one generation" is modelled, through `BeginGenerate` and `FinishGenerate`. Which attempt head first sees a cancel is not derived from the page; it is a parameter of the orchestrator.
- `JSON.parse`, `JSON.stringify` and `localStorage` are replaced by the `StoredText` value. Properties of stored objects beyond the five generation fields are not represented, so they are not carried into the loaded result either.
- Logging. `console.log` and `console.error` are diagnostics with no effect on any result.
- `compressImage`: canvas drawing, image decoding and floating-point scaling are outside a verifier's reach. `createImagePreview` is a browser object-URL wrapper. An `UploadedImage` is taken as given.
- Rendering. The JSX of the page and every component are out of scope. So are the layout and date formatting. `canGenerate` enabling the button is its only use here.
- Api.BackoffDelay: numbers are unbounded integers. The model does not capture floating-point overflow of `Math.pow` for huge attempt numbers, or fractional or NaN configuration values.
- Api.GenerateImageWithRetry: a non-integer `maxAttempts` is not modelled, since `RetryConfig` fields are integers.
- Api.GenerateImageWithRetry: JavaScript numbers are not modelled at their width. For `maxAttempts` above 2^53, `attempt++` stops advancing, so the source never reaches the exhaustion message; the model always ends. Neither this nor the exponent form a template literal uses from 1e21 on (which `Strings.NatToString` and `Strings.IntToString` do not produce) arises under the page's default of 3 attempts.
- `RetryConfig.attempt`: it is carried in the record but read nowhere.
- LocalStorage.SavesKeepNewest: it requires at least one save. With none, the history may be longer than five when the store came in with more.
- Page.Home.FinishGenerate: the `catch` at src/app/page.tsx:107-113 is reached only through a `Threw` outcome. Nothing in the modelled orchestrator rejects.
