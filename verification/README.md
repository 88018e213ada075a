# Appraisal frontend core, modelled in Dafny

This project models the client core of a second-hand goods appraisal web app.
The user picks a photo. The client validates it and reads it as a data URL. It
posts the image to the analysis API and keeps the result in a small state
machine. Past appraisals are paged in ten at a time.

The parts modelled:

- **`ApiClient`** (`api_client.dfy`): the authenticated request executor, and
  the calls built on it. The executor injects the headers, retries once on a
  401 after forcing a token refresh, and chooses the error message. `fetch` is
  a scripted transport: the sequence of exchanges successive requests yield.
- **`StreamDecoder`** (`stream_decoder.dfy`): the streaming analysis call and
  its read loop. The loop works in four steps:
  - it buffers decoded text;
  - it splits the text at newlines and carries over the unterminated tail;
  - it keeps the `data: ` lines and parses each one;
  - it routes each parsed envelope to `onEvent`, `onComplete` or `onError`.

  The loop is the method `DecodeStream`. It is proved against
  `StreamCallbacks`, a definition on the whole received text. The decoder's
  main property, that chunk boundaries are invisible, is proved about that
  definition.
- **`AnalyzeHook`** (`analyze_hook.dfy`): the `idle / loading / success /
  error` state machine of `analyze` and `reset`, with its derived flags.
- **`HistoryPager`** (`history_pager.dfy`): the offset pager behind
  `refresh` and `loadMore`, with `PAGE_SIZE = 10`. The lemmas use a server
  whose collection is stably ordered. Against it, the loaded items are always
  a prefix of the collection, and a short page means the collection is
  exhausted. The method `PageThrough` drives a controller through a
  `refresh` and any number of `loadMore`s, and it is proved to end with
  exactly the items the definition `Loaded` gives.
- **`ImagePicker`** (`image_picker.dfy`): the file validator, and the
  `preview` / `error` state that choosing or clearing a file changes.
- **`LegacyApp`** (`legacy_app.dfy`): the standalone page. It models:
  - the file validation;
  - the `clearImage` reset;
  - the precondition of `submitAppraisal`;
  - how `submitAppraisal` chooses its error message.
- **`Utils`**, **`Strings`**, **`Browser`**, **`AppraisalTypes`** and
  **`Wrappers`**:
  - the pure helpers: platform detection, data-URL payload extraction, and
    the branches of the file-size label;
  - JavaScript string operations (`indexOf`, `split('\n')`, number to decimal
    text);
  - browser values (identity, request, response, caught values, files);
  - the wire types.

Behaviour kept exactly as the code has it:

- A `complete` envelope without a `result` goes to `onEvent`. It is not
  treated as a protocol error.
- An `error` envelope calls `onError` and the loop goes on reading.
- The streaming call has no 401 retry.
- `analyze` is not refused while an earlier call is loading.
- A second 401 in a row throws the ordinary `HTTP 401` error, or the server's
  `detail` when it has one. No separate authentication error exists.
- The retry on 401 depends only on a user being signed in. It happens even
  for a call made with `requireAuth: false`.
- The analysis hook uses the single-request path. There is no streaming
  controller with an event log or a cancel operation, so none is modelled.

## Model

| member | source | states |
|---|---|---|
| Strings.IndexOf | src/lib/utils.ts:36 | `indexOf` is -1 exactly when the pattern occurs nowhere; otherwise it is the first occurrence |
| Strings.Split | src/lib/api.ts:150 | `split('\n')` yields at least one segment |
| Strings.SplitSegmentsAreLines | src/lib/api.ts:150 | no segment of `split('\n')` contains a newline |
| Strings.JoinSplit | src/lib/api.ts:150 | joining the segments of `split('\n')` with newlines gives back the text |
| Strings.SplitAppend | src/lib/api.ts:149-151 | splitting `a + b` gives the complete lines of `a`, then the split of `a`'s unterminated tail followed by `b`, so carrying only the tail loses nothing |
| Strings.TerminatedLines | src/lib/api.ts:150-151 | newline-terminated text yields exactly its lines and leaves an empty buffer |
| Strings.IntToDecimal | src/lib/api.ts:51 | a number's decimal text: digits with no leading zero, and a minus sign for negatives |
| Strings.DecimalRoundTrip | src/lib/api.ts:78 | the decimal text of a natural number reads back as that number |
| Browser.Refreshed | src/lib/api.ts:45 | after a forced refresh, the identity's token is the refreshed one; in this two-token model a second refresh yields the same token |
| Utils.ToLower | src/lib/utils.ts:17 | lower-casing keeps the length and lower-cases each ASCII letter |
| Utils.DetectPlatform | src/lib/utils.ts:16-26 | `ios` iff the lower-cased agent mentions iphone, ipad or ipod; `android` iff it does not and mentions android; `web` otherwise |
| Utils.DetectPlatformIgnoresCase | src/lib/utils.ts:17-25 | the platform depends only on the lower-cased user agent |
| Utils.IsMobileDevice | src/lib/utils.ts:29-32 | mobile iff the detected platform is iOS or Android |
| Utils.ExtractBase64Data | src/lib/utils.ts:35-41 | the result is a suffix of the input: all of it when `base64,` is absent, else the text after the first `base64,` |
| Utils.DataUrlPayload | src/lib/utils.ts:34-41 | for `data:<mime>;base64,<payload>` with no comma in the MIME type, the extracted text is exactly the payload |
| Utils.FormatFileSize | src/lib/utils.ts:44-48 | bytes below 1024, kilobytes below 1024², megabytes otherwise; the byte label is the decimal count followed by ` B` |
| Utils.ByteLabelReadsBack | src/lib/utils.ts:45 | a byte label reads back as the byte count |
| ApiClient.RequestHeaders | src/lib/api.ts:27-35 | JSON content type always; `Authorization: Bearer <token>` iff authentication is required and a user exists; no other header |
| ApiClient.FailureMessage | src/lib/api.ts:49-51 | an unreadable error body counts as `API request failed`; a truthy `detail` is the message; otherwise `HTTP <status>`; never empty |
| ApiClient.Settle | src/lib/api.ts:37-54 | success iff a 2xx reply with a JSON body, and then the body is the value; a failed fetch, a non-2xx status and an unparsable 2xx body each become their own error |
| ApiClient.Execute | src/lib/api.ts:20-55 | one or two requests, and a refresh iff a first-attempt 401 with a signed-in user; the retry carries the refreshed token; the outcome is that of the last exchange; the identity left behind is the refreshed one iff a refresh happened |
| ApiClient.SecondUnauthorizedIsFinal | src/lib/api.ts:43-51 | two 401s in a row give two requests, one refresh and the ordinary HTTP error of the second reply |
| ApiClient.NoUserNoRetry | src/lib/api.ts:32-47 | without a user there is no retry and no Authorization header, and the first exchange decides the outcome |
| ApiClient.RefreshOutlivesTheCall | src/lib/api.ts:33-46 | after a call whose first reply was a 401, the user's next authenticated call sends the refreshed token |
| ApiClient.AtMostOneRetry | src/lib/api.ts:43-47 | at most one refresh and two requests per call, and none on a retry |
| ApiClient.AnalysisRequest | src/lib/api.ts:59-63 | the request carries the image and comment, plus the platform detected from the user agent |
| ApiClient.AnalyzeImage | src/lib/api.ts:58-70 | an authenticated POST of the analysis request to `/api/v1/analyze` |
| ApiClient.HistoryEndpoint | src/lib/api.ts:78 | the history query starts with `/api/v1/appraisals?limit=` |
| ApiClient.HistoryEndpointDeterminesOffset | src/lib/api.ts:73-81 | two history queries with the same limit are equal only for equal offsets |
| ApiClient.GetAppraisalHistory | src/lib/api.ts:73-81 | an authenticated GET of the page query with no body |
| ApiClient.GetAppraisal | src/lib/api.ts:84-88 | an authenticated GET of `/api/v1/appraisals/<id>` |
| ApiClient.GetUserProfile | src/lib/api.ts:91-93 | an authenticated GET of `/api/v1/users/me` |
| StreamDecoder.Route | src/lib/api.ts:158-164 | `onComplete` iff type `complete` with a result; `onError` iff type `error`, with its message or the fallback; otherwise, including a missing or unknown type, `onEvent` with the envelope itself |
| StreamDecoder.DispatchLine | src/lib/api.ts:154-167 | a line yields one callback iff it starts with `data: ` and its payload parses; that callback is the payload's route |
| StreamDecoder.DispatchAll | src/lib/api.ts:153-169 | no more callbacks than lines |
| StreamDecoder.DispatchAllAppend | src/lib/api.ts:153-169 | lines are dispatched independently and in order |
| StreamDecoder.LeadingChunks | src/lib/api.ts:145-147 | the loop reads exactly the chunks before the first read that is not a chunk |
| StreamDecoder.ReceivedAppend | src/lib/api.ts:149 | the received text of consecutive reads is the concatenation of their texts |
| StreamDecoder.Termination | src/lib/api.ts:145-175 | the loop's ending adds at most one callback, and that one is an `onError` |
| StreamDecoder.Received | src/lib/api.ts:149 | the received text starts with the first chunk's text |
| StreamDecoder.NoChunkNoText | src/lib/api.ts:149 | reads that carry no chunk add no text |
| StreamDecoder.StreamCallbacks | src/lib/api.ts:143-175 | at most one callback per complete line plus one; when the loop stops on a failed read, the last callback is `onError` with that read's message |
| StreamDecoder.ReadsAfterStopIgnored | src/lib/api.ts:145-147 | once a read ends the loop, whatever the body would have yielded afterwards changes no callback |
| StreamDecoder.ConsumeChunk | src/lib/api.ts:149-169 | one chunk dispatches the complete lines of buffer plus chunk, and leaves their unterminated tail as the new buffer |
| StreamDecoder.DecodeStream | src/lib/api.ts:143-170 | the loop makes exactly the callbacks of the complete lines of all received text, then the termination; the final buffer is the unterminated tail |
| StreamDecoder.ChunkBoundariesIrrelevant | src/lib/api.ts:143-170 | two chunkings of the same text, followed by the same ending, give the same callbacks |
| StreamDecoder.SplittingAChunkIsInvisible | src/lib/api.ts:149-151 | cutting a chunk in two anywhere, even inside a line, changes no callback |
| StreamDecoder.MalformedLineSkipped | src/lib/api.ts:154-167 | a line without the prefix, or whose payload does not parse, contributes nothing and is skipped |
| StreamDecoder.ErrorEnvelopeDoesNotStop | src/lib/api.ts:160-161 | an `error` envelope yields one `onError`, and the lines after it are still dispatched |
| StreamDecoder.SingleChunk | src/lib/api.ts:143-151 | a body in one chunk dispatches that chunk's complete lines |
| StreamDecoder.UnterminatedTailIgnored | src/lib/api.ts:150-151 | text after the last newline is never dispatched |
| StreamDecoder.FramedBody | src/lib/api.ts:143-169 | a body of newline-terminated lines dispatches exactly those lines |
| StreamDecoder.ProgressThenComplete | src/lib/api.ts:153-164 | start and complete progress envelopes followed by a `complete` envelope with a result give `onEvent`, `onEvent`, `onComplete` |
| StreamDecoder.OnlyAnError | src/lib/api.ts:160-161 | a body holding only an `error` envelope with a message yields exactly `onError(message)` |
| StreamDecoder.AnalyzeImageStream | src/lib/api.ts:96-182 | authenticated POST to the stream path; an open failure, a non-2xx status and a missing body each give one `onError`; an abort gives none; otherwise the body's callbacks |
| AnalyzeHook.ErrorText | src/hooks/useAnalyze.ts:31 | the message of an `Error`, else the analysis fallback |
| AnalyzeHook.Caught | src/lib/api.ts:49-54 | whatever the executor throws is caught as an `Error` carrying its message |
| AnalyzeHook.AnalyzeController.constructor | src/hooks/useAnalyze.ts:9-12 | starts idle, with no result and no error |
| AnalyzeHook.AnalyzeController.AtMostOneFlag | src/hooks/useAnalyze.ts:50-52 | at most one of isLoading, isSuccess and isError holds |
| AnalyzeHook.AnalyzeController.Begin | src/hooks/useAnalyze.ts:16-18 | enters loading and clears the result and the error |
| AnalyzeHook.AnalyzeController.Analyze | src/hooks/useAnalyze.ts:14-38 | signs in first if needed, and a failed sign-in sends nothing; otherwise sends the analysis request with the current identity, and keeps the identity the call leaves behind, so a token refreshed on a 401 is used by the next call; ends in success with the result iff the call succeeded, else in error with the caught message |
| AnalyzeHook.AnalyzeController.Reset | src/hooks/useAnalyze.ts:40-44 | back to idle with no result and no error |
| AnalyzeHook.ServerDetailReachesTheHook | src/hooks/useAnalyze.ts:30-33 | a non-2xx reply's non-empty `detail` is the error the hook stores |
| HistoryPager.ErrorText | src/hooks/useAppraisalHistory.ts:29 | the message of an `Error`, else the history fallback |
| HistoryPager.HistoryController.constructor | src/hooks/useAppraisalHistory.ts:8-11 | starts with no items, not loading, no error, and more to load |
| HistoryPager.HistoryController.StartFetch | src/hooks/useAppraisalHistory.ts:14-18 | marks loading and clears the error; the offset is 0 on reset, else the number of items loaded |
| HistoryPager.HistoryController.FinishFetch | src/hooks/useAppraisalHistory.ts:21-33 | a page replaces or extends the items, and there is more iff the page is full; a failure keeps the items and records the message; loading ends either way |
| HistoryPager.HistoryController.Fetch | src/hooks/useAppraisalHistory.ts:13-34 | requests one page of ten at the chosen offset and applies the reply as above |
| HistoryPager.HistoryController.Refresh | src/hooks/useAppraisalHistory.ts:36-38 | fetches from offset 0 and replaces the items |
| HistoryPager.HistoryController.LoadMore | src/hooks/useAppraisalHistory.ts:40-44 | does nothing while loading or when there is no more; otherwise fetches at the current length and appends |
| HistoryPager.Page | src/hooks/useAppraisalHistory.ts:18-19 | the page a stable server answers: at most `limit` items, starting at `offset` |
| HistoryPager.NextPageExtendsPrefix | src/hooks/useAppraisalHistory.ts:18-24 | appending the next page to a loaded prefix of the collection gives a longer prefix |
| HistoryPager.ShortPageMeansExhausted | src/hooks/useAppraisalHistory.ts:27 | when the page is short, the items plus that page are the whole collection |
| HistoryPager.ConsecutivePagesDisjoint | src/hooks/useAppraisalHistory.ts:18-19 | given distinct ids, the first two pages share no item |
| HistoryPager.Loaded | src/hooks/useAppraisalHistory.ts:13-44 | after a refresh and `pages - 1` successful `loadMore`s, `pages` times ten items, or the whole collection when it is shorter |
| HistoryPager.PagingMirrorsCollection | src/hooks/useAppraisalHistory.ts:13-44 | the items `Loaded` after any number of pages are a prefix of the collection |
| HistoryPager.ExhaustedStaysPut | src/hooks/useAppraisalHistory.ts:27 | once a page comes back short, the whole collection is loaded and every further page is empty and changes nothing |
| HistoryPager.NextPageOfLoaded | src/hooks/useAppraisalHistory.ts:18-27 | one more page extends the loaded items by exactly the next page; a short page completes the collection, and an exhausted collection answers an empty page |
| HistoryPager.ServedPage | src/lib/api.ts:73-81 | a history call answered by a 2xx JSON page settles to exactly that page |
| HistoryPager.RefreshServed | src/hooks/useAppraisalHistory.ts:36-38 | `refresh` against a server answering one page loads exactly that page, stops loading, and has more iff the page is full |
| HistoryPager.LoadMoreServed | src/hooks/useAppraisalHistory.ts:40-44 | `loadMore` against a server answering one page appends it when there is more, and otherwise leaves the items as they were |
| HistoryPager.PageThrough | src/hooks/useAppraisalHistory.ts:13-44 | a controller that refreshes and then calls `loadMore` n times against a stable server holds exactly `Loaded(collection, n + 1)`: a prefix of the collection, and the whole of it once there is no more |
| ImagePicker.MaxSizeShownInMegabytes | src/components/ImagePicker.tsx:26-27 | the size limit falls in `formatFileSize`'s megabyte branch and equals 10 MiB, a whole number of megabytes; the message built from it reads `10.0 MB` |
| ImagePicker.ValidateFile | src/components/ImagePicker.tsx:22-30 | a file is accepted iff its type is JPEG, PNG or WebP and it is at most 10 MiB; the type is checked first |
| ImagePicker.LimitIsInclusive | src/components/ImagePicker.tsx:26 | exactly 10 MiB passes, and one byte more is refused for size |
| ImagePicker.Picker.constructor | src/components/ImagePicker.tsx:16-18 | no preview, no error, nothing read or reported |
| ImagePicker.Picker.ProcessFile | src/components/ImagePicker.tsx:32-51 | a rejected file only sets the error; an accepted one clears it and is read; a loaded read shows the data URL and passes it to `onImageSelect`; a failed read changes nothing more |
| ImagePicker.Picker.HandleClear | src/components/ImagePicker.tsx:87-91 | clears the preview and the error and calls `onImageClear` once |
| LegacyApp.Validate | legacy/app.js:80-93 | a file is accepted iff its type is JPEG, PNG or WebP and it is at most 10 MiB; the type is checked first |
| LegacyApp.ValidatorsAgree | legacy/app.js:82-93 | the legacy page and the picker accept the same files and refuse the same types |
| LegacyApp.Shown | legacy/app.js:177-179 | a truthy field is shown as is, anything else as `-` |
| LegacyApp.View | legacy/app.js:176-181 | no field of the shown result is empty; each truthy field is shown as it is; a result with no truthy field shows the blank view |
| LegacyApp.RefusalMessage | legacy/app.js:146-149 | a truthy `detail` is the message, else `エラーが発生しました (<status>)`; never empty |
| LegacyApp.SubmitOutcome | legacy/app.js:135-159 | a result iff a 2xx JSON reply; a failed fetch naming `fetch` gets the connection hint; other failures show their message, or the fallback when it is empty |
| LegacyApp.FailedFetchShowsConnectionHint | legacy/app.js:155-156 | the browser's `Failed to fetch` becomes the connection hint |
| LegacyApp.RefusalWithoutDetail | legacy/app.js:146-149 | a 500 with an unreadable body shows `エラーが発生しました (500)` |
| LegacyApp.Page.constructor | legacy/app.js:20-21 | nothing selected, and every element in its cleared state |
| LegacyApp.Page.ProcessFile | legacy/app.js:80-111 | a rejected file shows its message and keeps the old selection; an accepted one is selected at once; a loaded read stores the image and enables submit and clear; a failed read shows the read error |
| LegacyApp.Page.ClearImage | legacy/app.js:113-123 | forgets the file and image and returns every element to its cleared state |
| LegacyApp.Page.SubmitAppraisal | legacy/app.js:125-163 | without a truthy image nothing is sent and the prompt is shown; otherwise posts the image, then shows either the result or one message, and re-enables the button |

## Left out

- Character decoding: the stream's UTF-8 `TextDecoder` is left out; chunks arrive as decoded text.
- JSON: `JSON.parse` and `JSON.stringify` are left out. Parsing is the parameter `parse`, and a parsed body is a typed value or `Malformed`.
- Error `detail` values that are not strings are not modelled.
- A non-2xx body that is the JSON value `null` is not modelled. Reading `detail` from it throws a `TypeError`, so the call fails with that error's message rather than `HTTP <status>`. `Body` has no case for it.
- A 2xx body that is the JSON value `null` is not modelled either, because a `Json` body always holds a value. In the code, `useAnalyze` would store `success` with a null `result`. The legacy page would throw a `TypeError` inside `showResult`, and that error's message would be shown.
- A stream payload that parses to a JSON value other than an object is not modelled. A bare number, string or boolean goes to `onEvent` in the code, but `parse` can only yield an envelope. A payload of `null` throws when its `type` is read and is skipped, which matches `parse` yielding `None`.
- The configured base URL is not modelled. It only prefixes every path.
- Firebase: sign-in and `getIdToken` are an explicit identity. A forced refresh switches the user's identity to the refreshed token, for the retry and for the user's later calls. A failing `getIdToken` is not modelled.
- Browser.Refreshed: Firebase mints a new token on every forced refresh. The model's identity holds one current and one refreshed token, so a second refresh yields the same token again. One call forces at most one refresh. When later calls force further refreshes, the model sends that same token where Firebase would send a new one.
- Utils.ToLower: `toLowerCase` beyond ASCII letters is not modelled, because every platform marker is ASCII.
- Utils.FormatFileSize: the kilobyte and megabyte figures (`toFixed(1)` on a float) are not rendered. Only the unit and the byte text are modelled.
- MaxSizeShownInMegabytes: the megabyte figure of the size message is rendered only for a whole number of megabytes, as the integer followed by `.0`. General `toFixed(1)` rounding of a fractional figure is not modelled.
- `formatPrice` and `cn` are not modelled. They are formatting and styling.
- React rendering, drag-over highlighting and keyboard handling are not modelled.
- The legacy page's button label toggling and the resetting of the file input are not modelled.
- The legacy page's initial DOM comes from its HTML, which is not part of this model. The model assumes it starts as `clearImage` leaves it.
- Callback exceptions are not modelled. In the stream loop, a callback that throws would be swallowed by the per-line `catch`.
- Concurrency is not modelled. Each asynchronous operation runs to completion before the next begins, so interleaved `analyze` or `fetch` calls and stale closures are out of scope.
- `getAppraisal(id)` does not encode `id` in the URL, and the model does not either.
- ApiClient.Execute: every call is given at least two scripted exchanges, even when only one is used. This is a bound on the script, not on the behaviour.
- The event log of the streaming UI (`AnalysisProgress`) is not modelled.
