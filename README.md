# Cat consultation chat client — Dafny model

This project models the logic of a small React chat client for a cat-health
consultation service. The user types a question, optionally attaches a photo,
and the page forwards it to a remote consultation API. The reply comes back
as a chat message. Three parts hold logic and are modelled:

- **The service layer** (`src/services/api.ts`), in module `Api`:
  - image validation: an allow-list of three MIME types, then a 5 MiB ceiling;
  - the timeout wrapper around `fetch`, which arms a timer and clears it on
    every path, and maps an abort to a fixed timeout error;
  - the health check;
  - the business-level folding shared by the simple and the workflow
    consultation calls, and their catch clause.
- **The chat page with image upload** (`src/components/ChatPage.new.tsx`),
  module `ChatPageNew`. Class `ChatPage` has the component's state as
  fields: `messages`, `input`, `isLoading`, `selectedImage`,
  `imagePreview` and `consultationType`.
- **The older text-only chat page** (`src/components/ChatPage.tsx`), module
  `ChatPageLegacy`: the same machine with a text-only guard and its own
  response checks.

Module `ApiTypes` turns the records of `src/types/api.ts` into datatypes.
Module `Js` holds the JavaScript facts the code relies on:
- thrown values (`Error` or not) and settled promises;
- truthiness of optional strings (`""` is falsy);
- `String.prototype.trim`, over the ECMAScript white-space and
  line-terminator characters;
- the decimal rendering of a status code;
- the browser timer table behind `setTimeout`/`clearTimeout`.

Nothing runs asynchronously. `sendMessage` is split at its first `await`:
- `Submit` is the synchronous part: the guard, the optimistic user message,
  clearing the input and setting the loading flag;
- `ChatPageNew.AwaitConsultation` is the awaited body of the `try`: it reads
  the image, then calls `simpleConsultation`;
- `Resolve` is the rest of the `try` after the call (the
  `response.success && response.report` test and its `throw`), its `catch`
  and its `finally`.

How each awaited step settled (the `fetch`, the file read) is a parameter.
The clock is a parameter too (`now`, in milliseconds).

The code never looks at the HTTP status of a consultation reply:
only the parsed body decides (`Api.ConsultationOutcome`, `Api.StatusIgnored`).

## Model

| member | source | states |
|---|---|---|
| Api.ValidateImageFile | src/services/api.ts:196-215 | valid exactly when there is no error; valid exactly for an allowed type of at most 5 MiB; a disallowed type gets the format error whatever its size (type checked first); an allowed oversize file gets the size error; every rejection carries a non-empty message |
| Api.FiveMiBBoundary | src/services/api.ts:197-212 | an allowed file of exactly 5·1024·1024 bytes passes; one byte more fails with the size error |
| Api.IsAbort | src/services/api.ts:35 | a thrown value is the abort rejection exactly when it is an Error whose name is "AbortError" |
| Api.AfterFetch | src/services/api.ts:26-39 | a response passes through unchanged; an AbortError becomes the fixed timeout error; any other rejection is rethrown unchanged; the result is never an abort |
| Api.FetchWithTimeout | src/services/api.ts:22-40 | arms one timer of the given delay and leaves the armed-timer table as it found it, on the resolved and the rejected path alike; returns the AfterFetch mapping of the fetch outcome |
| Api.HealthOutcome | src/services/api.ts:51-58 | succeeds exactly on an ok response, with its body; a non-ok response fails with the health-check prefix followed by its statusText; a failed fetch is rethrown |
| Api.CheckHealth | src/services/api.ts:45-60 | issues GET /api/health with the 10000 ms timeout (not the 60000 ms default), clears its timer, and yields HealthOutcome of the mapped fetch |
| Api.FoldBody | src/services/api.ts:75-82 | fails exactly when success is false and a non-empty error is present, with exactly that error text; every other body is returned unchanged |
| Api.Rethrow | src/services/api.ts:83-88 | an Error is rethrown as it is; any other thrown value becomes the generic consultation-failure Error; the result is always an Error |
| Api.ConsultationOutcome | src/services/api.ts:66-89 | a failed fetch is rethrown through the catch clause; a response is decided by FoldBody on its body alone; every failure is an Error |
| Api.StatusIgnored | src/services/api.ts:75-80 | two responses with the same body give the same outcome, whatever their status, status text or ok flag |
| Api.AbortBecomesTimeout | src/services/api.ts:35-36 | an aborted fetch reaches the consultation's caller as the timeout Error |
| Api.SimpleConsultation | src/services/api.ts:65-90 | issues POST /api/consultation with a JSON body and the 60000 ms timeout, clears its timer, and yields ConsultationOutcome of the mapped fetch |
| Api.WorkflowConsultation | src/services/api.ts:95-119 | the same for POST /api/consultation/workflow, with the workflow report type |
| Js.Timers.SetTimeout | src/services/api.ts:24 | arms a timer under an id not already armed, records its delay, and changes no other timer |
| Js.Timers.ClearTimeout | src/services/api.ts:31-34 | removes exactly that timer from the armed table |
| Js.TrimStart | src/components/ChatPage.new.tsx:59 | the result is a suffix of the input; everything dropped is white space; the result does not start with white space |
| Js.TrimEnd | src/components/ChatPage.new.tsx:59 | the result is a prefix of the input; everything dropped is white space; the result does not end with white space |
| Js.Trim | src/components/ChatPage.new.tsx:65 | the trimmed text is the infix of the input left once the blank prefix and the blank suffix are removed, and it neither starts nor ends with white space |
| Js.TrimEmptyIffBlank | src/components/ChatPage.new.tsx:59 | `input.trim()` is empty exactly when the input is all white space |
| Js.DecimalString | src/components/ChatPage.tsx:63 | the rendered status code is a non-empty string of decimal digits, one digit below 10 and with no leading zero from 10 on |
| Js.ParseDecimalString | src/components/ChatPage.tsx:63 | reading the rendered digits back gives the original number |
| ChatPageNew.SendBlocked | src/components/ChatPage.new.tsx:59 | the guard as written: the trimmed input is empty and no image is selected, or a request is loading |
| ChatPageNew.SendBlockedIff | src/components/ChatPage.new.tsx:59 | sending is blocked exactly when a request is in flight, or when the text is blank and no image is selected |
| ChatPageNew.UserContent | src/components/ChatPage.new.tsx:65 | the user message text is the trimmed input when the input is not blank, the image placeholder when it is, and is never blank |
| ChatPageNew.UserMessage | src/components/ChatPage.new.tsx:62-68 | a user-role message with that content, the submit-time clock as timestamp, and the preview as imageUrl when the preview is non-empty |
| ChatPageNew.RequestFor | src/components/ChatPage.new.tsx:82-86 | the request carries the consultation type read at submit time, the user message's content as additionalNotes, and the encoded image |
| ChatPageNew.AwaitConsultation | src/components/ChatPage.new.tsx:74-87 | a staged image whose read fails skips the call and passes the read error on; otherwise it issues POST /api/consultation with RequestFor and the encoded image (none without a staged image) and yields the consultation outcome |
| ChatPageNew.Answered | src/components/ChatPage.new.tsx:88 | the awaited part resolved with `success` true and a report present |
| ChatPageNew.FailureReason | src/components/ChatPage.new.tsx:96-103 | the reason shown otherwise: the response's error when it is non-empty, else '未知错误'; for a thrown Error its message; for any other thrown value '未知错误' |
| ChatPageNew.Reply | src/components/ChatPage.new.tsx:88-106 | an assistant message; with success and a report, its content is the report text and its timestamp the report's; otherwise its content is the error prefix followed by the response's error, the thrown Error's message, or '未知错误', stamped with the clock |
| ChatPageNew.BusinessErrorShown | src/components/ChatPage.new.tsx:96-103 | a body with success false and an error text, under any HTTP status, ends up shown as the prefix followed by exactly that text |
| ChatPageNew.TimeoutShown | src/components/ChatPage.new.tsx:99-104 | an aborted fetch ends up shown as the prefix followed by the timeout message |
| ChatPageNew.ClearedImage | src/components/ChatPage.new.tsx:47-53 | the state with no selected image and no preview; messages, input, loading flag and consultation type kept |
| ChatPageNew.ClearedChat | src/components/ChatPage.new.tsx:113-116 | the state with an empty message log, no selected image and no preview; input, loading flag and consultation type kept |
| ChatPageNew.ClearChatIdempotent | src/components/ChatPage.new.tsx:113-116 | clearing the chat twice leaves the same state as clearing it once |
| ChatPageNew.ChatPage.constructor | src/components/ChatPage.new.tsx:7-12 | no messages, empty input, not loading, no image and no preview, general consultation |
| ChatPageNew.ChatPage.SetInput | src/components/ChatPage.new.tsx:231 | replaces the input and nothing else |
| ChatPageNew.ChatPage.SetConsultationType | src/components/ChatPage.new.tsx:188 | replaces the consultation type and nothing else |
| ChatPageNew.ChatPage.HandleImageSelect | src/components/ChatPage.new.tsx:25-36 | no file: no change; an invalid file: its validation error is raised as the alert and the state is left untouched; a valid file: it becomes the selected image and nothing else changes |
| ChatPageNew.ChatPage.PreviewLoaded | src/components/ChatPage.new.tsx:40-42 | the data URL becomes the preview and nothing else changes |
| ChatPageNew.ChatPage.ClearImage | src/components/ChatPage.new.tsx:47-53 | drops the selected image and its preview; everything else is kept |
| ChatPageNew.ChatPage.ClearChat | src/components/ChatPage.new.tsx:113-116 | empties the message log and drops the staged image; input, loading flag and consultation type are kept |
| ChatPageNew.ChatPage.Submit | src/components/ChatPage.new.tsx:56-72 | a blocked send changes nothing and dispatches nothing; a permitted one appends exactly the one user message, clears the input, sets the loading flag, keeps the image staged, and returns that message with the consultation type and image read at submit time |
| ChatPageNew.ChatPage.Resolve | src/components/ChatPage.new.tsx:88-110 | appends exactly one assistant message, Reply of the outcome, clears the loading flag, and drops the selected image and the preview, on every outcome |
| ChatPageNew.SneezingScenario | src/components/ChatPage.new.tsx:56-110 | a health question answered by a report leaves the user message and then the report's text with the report's timestamp, and the request carries the health type and the question as notes |
| ChatPageNew.RateLimitedScenario | src/components/ChatPage.new.tsx:56-110 | a body `{success: false, error: "rate limited"}` sent with status 200 is shown as the prefix followed by "rate limited" |
| ChatPageLegacy.SendBlocked | src/components/ChatPage.tsx:32 | the guard as written: the trimmed input is empty or a request is loading |
| ChatPageLegacy.SendBlockedIff | src/components/ChatPage.tsx:32 | sending is blocked exactly when a request is in flight or the text is blank |
| ChatPageLegacy.UserMessage | src/components/ChatPage.tsx:34-39 | a user-role message whose content is the trimmed input, which is not blank, stamped with the clock |
| ChatPageLegacy.ApiFailure | src/components/ChatPage.tsx:63 | the non-ok error text: the prefix, the decimal status code, a space, the status text |
| ChatPageLegacy.ApiFailureEmbedsStatus | src/components/ChatPage.tsx:62-64 | the non-ok error text starts with its prefix, and the status code can be read back from the digits that follow |
| ChatPageLegacy.Answered | src/components/ChatPage.tsx:62-69 | the fetch resolved with an ok response whose body has a non-empty `text` |
| ChatPageLegacy.FailureReason | src/components/ChatPage.tsx:62-84 | the reason shown otherwise: ApiFailure for a non-ok response, '无效的响应格式' for an ok one without text, a thrown Error's message, or '未知错误' for any other thrown value |
| ChatPageLegacy.Reply | src/components/ChatPage.tsx:62-87 | an assistant message; an ok response with a non-empty text shows that text; a non-ok response shows the prefixed status code and text; an ok response without text shows the prefixed '无效的响应格式'; a thrown Error shows its prefixed message, anything else '未知错误' |
| ChatPageLegacy.ServiceUnavailableShown | src/components/ChatPage.tsx:62-64 | a 503 "Service Unavailable" response is shown as "抱歉，发生了错误: API 请求失败: 503 Service Unavailable" |
| ChatPageLegacy.ClearedChat | src/components/ChatPage.tsx:93-95 | the state with an empty message log; input and loading flag kept |
| ChatPageLegacy.ClearChatIdempotent | src/components/ChatPage.tsx:93-95 | clearing twice leaves the same state as clearing once |
| ChatPageLegacy.ChatPage.constructor | src/components/ChatPage.tsx:16-18 | no messages, empty input, not loading |
| ChatPageLegacy.ChatPage.SetInput | src/components/ChatPage.tsx:160 | replaces the input and nothing else |
| ChatPageLegacy.ChatPage.Submit | src/components/ChatPage.tsx:29-60 | a blocked send changes nothing and issues nothing; a permitted one appends exactly the one user message, clears the input, sets the loading flag, and issues the agent POST whose single user turn is that message's content |
| ChatPageLegacy.ChatPage.Resolve | src/components/ChatPage.tsx:62-90 | appends exactly one assistant message, Reply of the outcome, and clears the loading flag, on every outcome |
| ChatPageLegacy.ChatPage.ClearChat | src/components/ChatPage.tsx:93-95 | empties the message log; the input and the loading flag are kept |

## Left out

- Real networking and timers. The model does not fire timers. An abort shows
  up only as a fetch that settled with an `AbortError`. The base URL
  (`import.meta.env`, the fixed agent origin) is left out; requests carry
  only their path.
- `fileToBase64` and the preview `FileReader`. Their results are parameters:
  `read` of `ChatPageNew.AwaitConsultation`, and `ChatPage.PreviewLoaded`.
- `compressImage`. It is canvas glue, and its resize ratio is floating-point
  arithmetic.
- JSON. Bodies are already-parsed records. The model does not cover a body
  that fails to parse, or a legacy `data.text` that is not a string. JSON
  numbers in the records (age, weight) are carried as `real` and never
  computed with.
- Interleaving of event handlers. `Submit` and `Resolve` are separate atomic
  steps. `Resolve` does not consult the loading flag, so a reply that arrives
  after a `ClearChat` is still appended, as in the code. No ordering between
  the two is claimed.
- Message ids and dates. An id is the clock reading (plus one for assistant
  messages); its conversion to a string is left out, and no uniqueness is
  claimed. `new Date(report.timestamp)` is kept as the report's timestamp
  text (`ParsedDate`); date parsing and locale formatting are left out.
- JSX rendering, scrolling, `console.error`, and `API_CONFIG`. `alert` is
  modelled only as the message `HandleImageSelect` returns. Resetting the
  hidden file input's value in `clearImage` is DOM state and is left out.
- The older page's `fetch` has no timeout wrapper. Its `Resolve` takes the
  raw fetch outcome.
- Characters: Dafny strings are sequences of Unicode scalar values, while
  JavaScript strings are UTF-16 code units. `trim` is modelled over the
  ECMAScript white-space and line-terminator set.
