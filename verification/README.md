# perfly core, modelled in Dafny

perfly is a web-performance service. A user submits a URL. The service stores a
PENDING test, and a background job processor picks the test up. The processor
asks PageSpeed Insights for an analysis, normalizes the answer into a
`TestResults` record (score, A–F grade, Core Web Vitals, request totals, one
run) and stores it as COMPLETED, or stores the error as FAILED. A second client
turns WebPageTest results into the same record, with its own threshold score. An
AI route asks a language model to comment on results, cleans the reply, and
falls back to a fixed analysis when the reply is unusable. A logger builds
structured entries and times operations.

The project models that core:

| file | module | what it holds |
|---|---|---|
| `wrappers.dfy` | `Wrappers` | `Option` and `Result` |
| `js.dfy` | `Js` | JSON values and JavaScript truthiness, thrown values, `\|\|` on strings, `startsWith`, decimal rendering |
| `metrics.dfy` | `Metrics` | `Math.round` over the reals, the grade table, the Web Vitals record |
| `pagespeed.dfy` | `PageSpeed` | client key lookup, normalization of a PageSpeed payload, the error path of `analyze` |
| `webpagetest.dfy` | `WebPageTest` | `runTest` query defaults, `calculatePerformanceScore` (an imperative method proved against a score function), the `getTestResults` transformation |
| `logger.dfy` | `Logger` | `createLogEntry`, the context helpers, `getRequestContext`, the `PerformanceMonitor` class |
| `analyze_route.dfy` | `AnalyzeRoute` | the fence-stripping regex, `trim`, the structure check, the fallback, the handler's responses |
| `queue.dfy` | `JobQueue` | the `tests` table as a class over a `map`, the `TestJobProcessor` class, the singleton slot, the module-load auto-start |
| `run_route.dfy` | `RunRoute` | `POST /api/tests/run`: validation, the `https://` rule, the insert, starting the processor |

Everything the code cannot decide itself becomes a parameter:
- the clock and the environment variables
- each database write's outcome and the HTTP responses
- `JSON.parse`, `JSON.stringify` and `new URL(...).toString()`
- the session lookup and the fresh test id

The job processor gets these through a `World` value.

Pending `setTimeout` callbacks are counted in the field `armedTimers`. `Tick`
is one of them firing. A poll pass processes its batch one job after another.

## Model

| member | source | states |
|---|---|---|
| Metrics.Round | src/lib/pagespeed.ts:108 | `Math.round` gives the integer within half a unit of its argument, with halves rounded up |
| Metrics.RoundMonotone | src/lib/pagespeed.ts:108 | rounding preserves order |
| Metrics.RoundWhole | src/lib/webpagetest.ts:282 | rounding a whole number changes nothing, so the score's `Math.round` is the identity |
| Metrics.RoundPercentInRange | src/lib/pagespeed.ts:106-109 | a category fraction in [0, 1] becomes a percentage in [0, 100] |
| Metrics.GetGrade | src/lib/pagespeed.ts:184-190 | each grade holds exactly on its score interval: A at 90 and above, B in [80, 90), C in [70, 80), D in [60, 70), F below 60; the bounds are inclusive, and src/lib/webpagetest.ts:285-291 uses the same table |
| Metrics.GradeMonotone | src/lib/pagespeed.ts:184-190 | a higher score never gets a worse grade |
| PageSpeed.NewClient | src/lib/pagespeed.ts:59-63 | the base URL is the configured one unless that is missing or empty, then the Google default |
| PageSpeed.GetPageSpeedClient | src/lib/pagespeed.ts:195-205 | throws the missing-key error exactly when both key variables are missing or empty; otherwise uses `PAGESPEED_API_KEY` first and the default base URL |
| PageSpeed.Percent | src/lib/pagespeed.ts:150-167 | a sub-score is null exactly when its category score is null or missing; otherwise it is the rounded percentage; a present 0 stays 0; a fraction in [0, 1] gives [0, 100] |
| PageSpeed.SumTransferNonNegative | src/lib/pagespeed.ts:99-104 | items without a size add 0, so non-negative sizes give a non-negative `bytesIn` |
| PageSpeed.RequestCount | src/lib/pagespeed.ts:93-98 | `requests` is the number of items, and 0 when the list is missing or not an array |
| PageSpeed.BytesIn | src/lib/pagespeed.ts:99-104 | `bytesIn` is the summed sizes, and 0 when the list is missing or not an array |
| PageSpeed.Normalize | src/lib/pagespeed.ts:88-181 | summary grade is the grade of summary score; score is the performance percentage or 0; each sub-score is `Percent` of its category; missing audits read 0; FID is the field percentile, else TBT; the summary repeats the vitals and totals; exactly one run, which copies the summary; `url` is `data.id \|\| url` and `testId` is `fetchTime \|\| now` |
| PageSpeed.ScoreInRange | src/lib/pagespeed.ts:106-109 | with a fraction in [0, 1], or none, the summary score lies in [0, 100] |
| PageSpeed.Analyze | src/lib/pagespeed.ts:82-88 | a non-OK response throws `PageSpeed Insights API error: <statusText>` before normalizing; a failed fetch or body read rethrows; a `null` body throws a `TypeError` on reading `lighthouseResult`; it succeeds exactly for an OK response with a non-null body, and then gives `Normalize` of that body |
| PageSpeed.ExampleNormalization | src/lib/pagespeed.ts:106-138 | a performance fraction of 0.95 and an LCP of 1800 give score 95, grade A, LCP 1800 |
| WebPageTest.Flag | src/lib/webpagetest.ts:115-119 | a boolean option is sent as `'1'` exactly when it is true, else `'0'` |
| WebPageTest.RunCount | src/lib/webpagetest.ts:114 | a missing or 0 `runs` gives 1; any other count is kept |
| WebPageTest.RunTestParams | src/lib/webpagetest.ts:109-120 | the ten parameters in order, with `f=json` and the defaults `Dulles:Chrome`, `1` and `Cable`; given values are kept and each flag follows `Flag` |
| WebPageTest.PenaltyMonotone | src/lib/webpagetest.ts:259-280 | a larger metric never gets a smaller deduction under the strict thresholds |
| WebPageTest.PerformanceScore | src/lib/webpagetest.ts:256-282 | the score lies in [0, 100] and equals 100 minus the six deductions; the `max(0, …)` clamp never applies |
| WebPageTest.PerfectScore | src/lib/webpagetest.ts:259-280 | the score is 100 exactly when every metric is at or below its lower threshold |
| WebPageTest.ZeroScore | src/lib/webpagetest.ts:259-280 | the score is 0 exactly when every metric is above its upper threshold |
| WebPageTest.ScoreMonotone | src/lib/webpagetest.ts:259-280 | making any metrics worse never raises the score |
| WebPageTest.CalculatePerformanceScore | src/lib/webpagetest.ts:251-283 | the step-by-step deductions, rounding and clamping return `PerformanceScore` of the vitals, which lies in [0, 100] |
| WebPageTest.VitalsOf | src/lib/webpagetest.ts:187-194 | missing or falsy metrics give 0; LCP, FID and CLS come from `chromeUserTiming`, and FID has no TBT fallback |
| WebPageTest.RunOf | src/lib/webpagetest.ts:236-245 | an output run copies the first view, with `SpeedIndex` renamed `speedIndex` |
| WebPageTest.MapRuns | src/lib/webpagetest.ts:224-247 | one output run per input run, in order; it fails exactly when some run has no first view |
| WebPageTest.Transform | src/lib/webpagetest.ts:186-248 | the vitals are read from the first view; score is `PerformanceScore` of them and grade is its grade; each of the nine timing and size fields of the summary is the first view's field of the same meaning; `lighthouse` is present exactly when the input has it, with all four scores copied; the runs are `MapRuns` of the input runs, so it succeeds exactly when every run has a first view |
| WebPageTest.GetTestResults | src/lib/webpagetest.ts:168-248 | throws on a non-OK status, on a `null` body, on `statusCode` other than 200 (with its text), on missing `data`, and with `No test data available` when run 1 has no first view; it succeeds exactly for an OK, complete response whose every run has a first view, and its result is then `Transform` of run 1's first view, with a score in [0, 100] and the grade of that score |
| Logger.CreateLogEntry | src/lib/logger.ts:35-60 | the context only when given; error name and message exactly when an error is given; the stack only in development |
| Logger.WithOptional | src/lib/logger.ts:131 | a key is added only when its value is not `undefined` |
| Logger.TestStarted | src/lib/logger.ts:129-133 | info entry keyed `testId` and `url`, plus `userId` only when given |
| Logger.TestCompleted | src/lib/logger.ts:135-144 | info entry whose context holds exactly the given `testId`, `url` and `duration`, plus the `userId` only when given |
| Logger.TestFailed | src/lib/logger.ts:146-150 | error-level entry carrying the given error's name and message; its context holds exactly the given `testId` and `url`, plus the `userId` only when given |
| Logger.ApiRequest | src/lib/logger.ts:153-158 | info entry whose context holds exactly the given `method` and `path`, plus the `userId` and the `ip` each only when given |
| Logger.ApiError | src/lib/logger.ts:160-171 | error-level entry carrying the given error's name and message, with the same context values as `ApiRequest` |
| Logger.UserAuthenticated | src/lib/logger.ts:174-179 | info entry with exactly `userId` and `authMethod` |
| Logger.UserRegistered | src/lib/logger.ts:181-186 | info entry with exactly `userId` and `email` |
| Logger.BetterAuthLogin | src/lib/logger.ts:189-193 | info entry whose context holds exactly the given `userId`, plus the `provider` only when given |
| Logger.BetterAuthError | src/lib/logger.ts:195-199 | error-level entry carrying the given error's name and message; its context holds exactly the given `stage`, plus the `userId` only when given |
| Logger.PageSpeedApiCall | src/lib/logger.ts:202-206 | debug entry whose context holds exactly the given `endpoint`, plus the `url` only when given |
| Logger.PageSpeedApiError | src/lib/logger.ts:208-212 | error-level entry carrying the given error's name and message; its context holds exactly the given `endpoint`, plus the `url` only when given |
| Logger.AiAnalysisStarted | src/lib/logger.ts:215-219 | info entry with exactly `testId` |
| Logger.AiAnalysisCompleted | src/lib/logger.ts:221-226 | info entry whose context holds exactly the given `testId` and `tokensUsed`; `tokensUsed` is always a key, holding the given count, or `undefined` exactly when no count is given |
| Logger.AiAnalysisError | src/lib/logger.ts:228-236 | error-level entry with exactly `testId`, carrying the given error's name and message |
| Logger.GetRequestContext | src/lib/logger.ts:303-311 | `userAgent` exactly when that header exists; `ip` is `x-forwarded-for` unless it is missing or empty, then `x-real-ip`, and is unset when that is missing too |
| Logger.PerformanceMonitor.Start | src/lib/logger.ts:243-245 | records or overwrites the start time of the id; nothing else changes |
| Logger.PerformanceMonitor.End | src/lib/logger.ts:247-266 | with no start time, or a start time of 0, returns 0 and changes nothing; otherwise returns now minus start and removes only that id |
| Logger.PerformanceMonitor.Measure | src/lib/logger.ts:268-290 | returns the operation's outcome, success or failure, after calling `start` and then `end` on the id: a non-zero start time is consumed, and a start time of 0 stays behind |
| AnalyzeRoute.RemoveFences | src/app/api/ai/analyze/route.ts:86 | the global replace of ```` ```json ```` and ```` ``` ````, each with an optional newline, never lengthens the text |
| AnalyzeRoute.RemoveFencesLeavesNoMarker | src/app/api/ai/analyze/route.ts:86 | for every text, the replace leaves no three consecutive backticks, so no marker of either kind survives |
| AnalyzeRoute.RemoveFencesPlainText | src/app/api/ai/analyze/route.ts:86 | a text without backticks comes through the replace unchanged |
| AnalyzeRoute.StripFencesLeavesNoMarker | src/app/api/ai/analyze/route.ts:86 | the cleaned reply (replace, then `trim`) holds no three consecutive backticks |
| AnalyzeRoute.TrimKeepsNoMarker | src/app/api/ai/analyze/route.ts:86 | trimming a text without three consecutive backticks creates none |
| AnalyzeRoute.TrimStart | src/app/api/ai/analyze/route.ts:86 | the result is a suffix of the text; everything removed before it is JavaScript white space, and it does not itself start with white space |
| AnalyzeRoute.TrimEnd | src/app/api/ai/analyze/route.ts:86 | the result is a prefix of the text; everything removed after it is JavaScript white space, and it does not itself end with white space |
| AnalyzeRoute.Trim | src/app/api/ai/analyze/route.ts:86 | the result is the part of the text after its leading white space, with only white space after it, and has no white space at either end, so it is the text with exactly its white-space ends removed; it is empty exactly when the text is all white space |
| AnalyzeRoute.NoFenceAt | src/app/api/ai/analyze/route.ts:86 | no marker starts at a character other than a backtick |
| AnalyzeRoute.RemoveFencesPlainHead | src/app/api/ai/analyze/route.ts:86 | a leading non-backtick character is kept |
| AnalyzeRoute.RemoveFencesKeepsPlainPrefix | src/app/api/ai/analyze/route.ts:86 | text without backticks passes through unchanged, whatever follows it |
| AnalyzeRoute.TrimEndNewline | src/app/api/ai/analyze/route.ts:86 | a trailing newline is trimmed away |
| AnalyzeRoute.TrimIdempotent | src/app/api/ai/analyze/route.ts:86 | trimming twice is trimming once |
| AnalyzeRoute.StripFencedBlock | src/app/api/ai/analyze/route.ts:86 | a JSON body without backticks, wrapped in a ```` ```json ```` fence, cleans to the trimmed body |
| AnalyzeRoute.TrimIgnoresTrailingNewline | src/app/api/ai/analyze/route.ts:86 | a trailing newline makes no difference to `trim` |
| AnalyzeRoute.BuildFallback | src/app/api/ai/analyze/route.ts:106-144 | score is the summary score if truthy, else 70; grade is the summary grade if truthy, else `'C'`; both are truthy; no issues; three recommendations (High, High, Medium); three insights |
| AnalyzeRoute.ZeroScoreBecomesSeventy | src/app/api/ai/analyze/route.ts:107 | a real score of 0 is replaced by 70 |
| AnalyzeRoute.Analyze | src/app/api/ai/analyze/route.ts:30-161 | 500 for an unreadable or null body or a failed model call, with the message only in development; 400 without test results; otherwise the parsed reply exactly when it parses and passes the structure check, else the fallback |
| JobQueue.NewTest | src/db/schema.ts:34-45 | a new row is PENDING with null results, error, WebPageTest id and completion time, and is well-formed |
| JobQueue.ApplyPatch | src/lib/queue.ts:84-132 | each update changes only the columns it sets: RUNNING only the status; COMPLETED the results and completion time, not the error; FAILED the error, not the results; all refresh `updatedAt` |
| JobQueue.TestTable.Insert | src/app/api/tests/run/route.ts:67-74 | a new id adds exactly that row; a duplicate id or a failed write throws and changes nothing |
| JobQueue.TestTable.Update | src/lib/queue.ts:84-90 | updates only the row with that id, and nothing when the write fails or the id is absent |
| JobQueue.Patched | src/lib/queue.ts:84-90 | an update by id keeps the set of ids, leaves other rows alone, changes nothing when the write fails, and otherwise applies the patch to that row |
| JobQueue.TestTable.SelectWhereStatus | src/lib/queue.ts:58-62 | distinct rows of that status, as many as exist up to the limit, in no particular order; or the query's error |
| JobQueue.ErrorMessage | src/lib/queue.ts:122-123 | an `Error`'s message, or `Unknown error` for any other thrown value |
| JobQueue.FinalRow | src/lib/queue.ts:77-138 | from PENDING: COMPLETED with the serialized results exactly when nothing failed; FAILED with the first failure's message exactly when something failed and the FAILED write succeeded; otherwise the last persisted state; id, url, user and creation time unchanged; the row stays well-formed |
| JobQueue.FailedJob | src/lib/queue.ts:77-99 | when a step throws, the RUNNING write followed by the FAILED write carrying the first failure's message is exactly the processed table |
| JobQueue.CompletedJob | src/lib/queue.ts:77-118 | when nothing throws, the RUNNING write followed by the COMPLETED write of the serialized analysis is exactly the processed table |
| JobQueue.AfterBatch | src/lib/queue.ts:64-71 | the batch's rows are processed; every other row is unchanged |
| JobQueue.AfterBatchStep | src/lib/queue.ts:64-71 | processing one more job extends the pass by that job |
| JobQueue.PassPreservesLifecycle | src/lib/queue.ts:56-138 | a pass keeps every row well-formed, never moves a status backwards, and never touches a COMPLETED or FAILED row, so nothing is retried |
| JobQueue.StaysPendingOnlyWhenBothWritesFail | src/lib/queue.ts:84-98 | a processed row stays PENDING exactly when its RUNNING and FAILED writes both failed |
| JobQueue.ForbiddenResponseFails | src/lib/queue.ts:92-98 | a 403 from PageSpeed ends the job FAILED with `PageSpeed Insights API error: Forbidden` and no results |
| JobQueue.PendingStraightToFailed | src/lib/queue.ts:84-98 | a failed RUNNING write sends the row from PENDING straight to FAILED |
| JobQueue.TestJobProcessor.Start | src/lib/queue.ts:22-36 | while processing it does nothing; otherwise it sets the flag, runs one pass over a valid selection and arms one timer |
| JobQueue.TestJobProcessor.Stop | src/lib/queue.ts:38-41 | clears the flag and leaves any armed timer armed |
| JobQueue.TestJobProcessor.SchedulePollForPendingTests | src/lib/queue.ts:43-54 | arms one timer while processing, none after `stop` |
| JobQueue.TestJobProcessor.Tick | src/lib/queue.ts:46-53 | a firing timer runs a pass and re-arms only while processing; a failed pass does not stop re-arming |
| JobQueue.TestJobProcessor.ProcessPendingTests | src/lib/queue.ts:56-75 | selects up to 5 PENDING rows and processes each; a failed select processes nothing; the table ends as `AfterBatch` |
| JobQueue.TestJobProcessor.ProcessTest | src/lib/queue.ts:77-99 | only the job's own row changes, and it ends as `FinalRow` |
| JobQueue.TestJobProcessor.SaveTestResults | src/lib/queue.ts:101-118 | writes COMPLETED; if that write fails, marks the job FAILED with that error |
| JobQueue.TestJobProcessor.MarkTestAsFailed | src/lib/queue.ts:120-138 | writes FAILED with the error message; a failure of that write is swallowed and changes nothing |
| JobQueue.TestJobProcessor.StopAndClearTimer | src/lib/queue.ts:38-41 | the corrected `stop`: clears the flag and cancels the armed timer |
| JobQueue.StartKeepsSinglePollLoop | src/lib/queue.ts:22-36 | `start` keeps at most one poll chain, and only while processing |
| JobQueue.TickKeepsSinglePollLoop | src/lib/queue.ts:46-53 | a firing timer keeps at most one poll chain |
| JobQueue.RestartBeforeTimerFires | src/lib/queue.ts:22-53 | as written, `start`, `stop`, `start` before the timer fires leaves two armed timers |
| JobQueue.RestartWithClearedTimer | src/lib/queue.ts:22-53 | with the corrected stop, the same sequence leaves one armed timer |
| JobQueue.ProcessorSlot.GetTestJobProcessor | src/lib/queue.ts:141-149 | creates an idle processor on the shared table on first use, and returns the same one afterwards |
| JobQueue.AutoStart | src/lib/queue.ts:151-158 | at load the processor starts, and runs one pass, only in production or when `AUTO_START_PROCESSOR` is `true` |
| RunRoute.Failed | src/app/api/tests/run/route.ts:104-122 | a 500 `Failed to start test`, carrying the error message exactly in development |
| RunRoute.WithScheme | src/app/api/tests/run/route.ts:36-38 | text starting with `http` is kept; anything else gets `https://` in front |
| RunRoute.WithSchemeIdempotent | src/app/api/tests/run/route.ts:36-38 | the candidate always starts with `http`, so applying the rule twice changes nothing |
| RunRoute.SessionUserId | src/app/api/tests/run/route.ts:52-53 | the session's user id, or null when there is none or it is empty |
| RunRoute.ValidateSubmission | src/app/api/tests/run/route.ts:23-49 | 500 for an unreadable or null body; 400 `URL is required` for a falsy url; 400 `Invalid URL format` for a non-string url or one the parser rejects; otherwise the parsed URL |
| RunRoute.Admission | src/app/api/tests/run/route.ts:23-74 | the row to insert is a new PENDING test with the fresh id, the session's user and the normalized URL; a failed validation or session lookup answers instead |
| RunRoute.Enqueue | src/app/api/tests/run/route.ts:66-103 | a failed or duplicate insert is a 500 that stores nothing and leaves the processor, its flag and its armed timers as they were; otherwise exactly the new row is added, the processor is running (the existing one when there was one), a pass runs and one more timer is armed if it was idle (one timer for a new processor), and the answer is `Test queued successfully` with the new id |
| RunRoute.Submit | src/app/api/tests/run/route.ts:9-126 | a rejected request or failed insert stores nothing and leaves the processor, its flag and its armed timers as they were; otherwise exactly the new row is stored, the processor is running, a pass runs and one more timer is armed if it was idle, and the answer is the new id; the measurement consumes its start time |
| RunRoute.AnonymousSubmission | src/app/api/tests/run/route.ts:36-74 | `example.com` without a session stores a PENDING row for `https://example.com/` with no user |

## Left out

- Network I/O: `fetch`, `response.json()`, the Gemini call and the better-auth session lookup are inputs. The PageSpeed request side (the query parameters and `strategy`) is not modelled.
- `JSON.parse`, `JSON.stringify` and the WHATWG URL parser are uninterpreted function parameters.
- `nanoid` is a parameter, and a colliding id surfaces as the duplicate-key error.
- Timers and concurrency. Each `processTest` is launched without `await`. The model runs each job to completion, in batch order, before the pass returns. Interleavings are not captured: a second pass could select a row whose RUNNING write has not landed yet. The performance monitor is one shared object keyed by the constant `test-creation`, and each `Submit` runs alone, so overlapping requests are not captured: one request's `end` removes the other's start time, and the other then logs a warning and measures 0.
- JobQueue.TestJobProcessor.Start: `start` awaits the first pass, so a concurrent `start` during that pass sees the flag already set. The model has no such interleaving.
- RunRoute.Submit: a processor that fails to start cannot happen in the model. `start` catches every error of its pass, so the route's catch around it has nothing to catch.
- Floating point: metric values are `real`, and `Math.round` is `floor(x + 0.5)` over the reals.
- TypeError texts are engine-specific. Reads through `null` or `undefined` give a `TypeError` value whose message is not the engine's.
- WebPageTest `runs` is an object keyed "1", "2", …. The model takes the runs as a sequence in key order, so gaps and non-numeric keys are not captured.
- PageSpeed.Analyze, WebPageTest.GetTestResults: a response body that is a JSON value other than `null` and not an object (a number, a string, an array) is read as an object whose fields are all missing, which is how property reads on it behave; the model has no separate case for such bodies.
- PageSpeed.Normalize: `network-requests` items that are not objects (for example `null`) are not modelled. The source would throw on reading `transferSize` from them.
- `getPageSpeedClient` and `getWebPageTestClient` cache their client. The model reads the keys on every call.
- `getTestStatus` and the request side of `runTest` and `getTestResults` (the fetch and its URL) are HTTP plumbing with no logic beyond the status check.
- Writing log entries (console, JSON lines, `sendToExternalLogger`), `captureError` and the log calls inside the routes and the queue are output only.
- The prompt text sent to the model in the analyze route is not modelled.

## Findings

| source | as written | input that shows it | evidently intended | confidence | as-written member | corrected member |
|---|---|---|---|---|---|---|
| src/lib/queue.ts:38-41 | `stop` clears `isProcessing` but not the timer armed by `schedulePollForPendingTests`; when that timer fires after a new `start`, it re-arms itself next to the new chain | `start()`, then `stop()`, then `start()` again within the 10 s poll interval: two timers stay armed, so the table is polled twice per interval from then on | `stop` also cancels the armed timer, so at most one poll chain exists and only while processing | not executed | JobQueue.RestartBeforeTimerFires | JobQueue.TestJobProcessor.StopAndClearTimer |
