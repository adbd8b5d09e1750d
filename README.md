# Keyword relevance analyzer — a Dafny model

The repository holds two Express servers that read an uploaded spreadsheet
of keywords and ask a language-model API, keyword by keyword, whether each
keyword is relevant to a topic.

`server.js` is the streaming variant. It checks the request, extracts the
keywords, and answers at once. It then works through the keywords in batches
of ten, with a circuit breaker that pauses 30 s after three consecutive
failures. Progress is pushed to every subscriber of its event stream, and the
registry of subscribers is the `clients` Map.

`src/server.js` is the polling variant. It keeps one global
`processingState` job record, which has a lifecycle
idle → processing → completed | error. It refuses a second submission while
a job runs, and works through the keywords in batches of two. Every oracle
call goes through a token-bucket rate limiter. A keyword is retried with
exponential backoff, and a 429 answer is waited out without using up a
retry. The results can be downloaded as a worksheet.

The model makes the plumbing explicit:
- The oracle is a supplied sequence of replies. A reply is a response with
  a status and a body, or a rejected `fetch`. The body is JSON or not, and its
  answer is missing, a string, or a shape on which the answer expression
  throws.
- Time is an integer clock.
- Every `setTimeout` is recorded as a `Pause` with its reason and length.
- Every event published to the subscribers is recorded as an `Effect`.

| file | module | models |
|---|---|---|
| base.dfy | `Base` | `Option`, the pauses both servers take, counting them |
| text.dfy | `Text` | `toLowerCase` (ASCII), `trim`, `includes`, decimal rendering |
| oracle.dfy | `Oracle` | the replies and how one is read into a verdict |
| sheet.dfy | `Sheet` | keyword extraction from the sheet rows, the stride batches |
| broadcast.dfy | `Broadcast` | the `clients` registry of server.js as a class |
| streaming.dfy | `Streaming` | the bulk endpoint and `processKeywords` of server.js |
| ratelimit.dfy | `RateLimit` | the token bucket of src/server.js as a class |
| retry.dfy | `Retry` | the retry and backoff policy of src/server.js, as a function |
| job.dfy | `Job` | `processingState` as a class, its bulk endpoint and the download |

Where the two servers differ from each other, or where their code departs
from what their names and comments suggest, the model follows the code:
- Pauses between batches differ:
  - `src/server.js` pauses after every batch, the last one included (line 209);
  - `server.js` skips the pause after the last batch (276-278).
- In `src/server.js` only successes count as processed; a failure goes to
  `errors` (192-199).
- An unreadable upload in `src/server.js` publishes no event and sends no
  response. It sets the status to error and appends to the `errors` of the
  previous job, whose results stay (145-146, 217-222).
- `server.js` admits a sheet without keywords and completes it at once. Only
  `src/server.js` answers 400 for it (162-164).
- Keywords of a batch are analysed one after the other, never concurrently.
- A subscriber gets no snapshot of the job when it connects.
- `server.js` publishes its per-keyword 'completed' event as soon as the body
  parses (152-156). This happens before the answer expression, which may still
  throw, is evaluated.

## Model

| member | source | states |
|---|---|---|
| Text.TrimShape | server.js:199 | `trim` leaves an infix of the string with only whitespace around it and none at its own ends |
| Text.TrimUnique | server.js:161 | whitespace, a core without whitespace at its ends and whitespace again trims to exactly that core (the converse of TrimShape) |
| Text.TrimIdempotent | server.js:199 | trimming a trimmed string changes nothing |
| Text.TrimLowerCommute | src/server.js:125 | lower-casing and trimming commute |
| Text.TrimStartShape | server.js:199 | the leading half of `trim` removes a whitespace prefix and leaves no leading whitespace |
| Text.TrimEndShape | server.js:199 | the trailing half of `trim` removes a whitespace suffix and leaves no trailing whitespace |
| Text.ContainsAt | src/server.js:201 | `includes` holds whenever the substring occurs at some position |
| Text.ContainsWitness | src/server.js:201 | when `includes` holds, the substring occurs at a returned position |
| Text.Decimal | src/server.js:118 | the rendering of a number is a non-empty string of digits, one digit long exactly below 10, starting with '0' only for 0 |
| Text.DecimalValue | src/server.js:118 | the digits of the rendering read back as the number itself |
| Oracle.Read | server.js:145-161 | a reply fails exactly when the call was rejected, the status is not 2xx, the body is not JSON or the answer expression throws; a non-2xx status fails with `API error: <status>`; a verdict is "relevant" exactly for content that lower-cases and trims to "true" |
| Oracle.LenientParse | src/server.js:117-126 | a well-formed 2xx reply is always a verdict, never an error, whatever text it carries; it is relevant exactly for affirmative content |
| Oracle.AffirmativeAccepted | server.js:161 | "true" in any letter case with any whitespace around it is affirmative |
| Oracle.AffirmativeOnly | src/server.js:125 | an affirmative content is exactly four letters spelling "true" up to case, with only whitespace around them |
| Oracle.ApiErrorMentions429 | src/server.js:118-119 | for a three-digit status, `API error: <status>` contains "429" exactly when the status is 429 |
| Oracle.DecimalThreeDigits | src/server.js:118 | a three-digit status renders as its hundreds, tens and units digits |
| Sheet.MatchTypeRule | server.js:203 | the match type is never empty and always trimmed; it is "Broad" exactly when the cell is missing, blank or itself "Broad", and otherwise the cell's trimmed text |
| Sheet.DefaultTrimmed | src/server.js:156 | the default match type "Broad" is already trimmed |
| Sheet.ExtractKeywords | server.js:196-207 | the `eachRow` loop yields exactly the keywords of the data rows (row 1 skipped), in row order |
| Sheet.KeywordSources | src/server.js:149-160 | extraction keeps row order, drops exactly the rows whose first cell trims to nothing, and invents nothing: each keyword comes from a distinct, increasing row, and every row with a keyword contributes |
| Sheet.KeywordsFromRows | src/server.js:149-160 | a row's keyword is among the extracted keywords exactly when the row gives one, and every extracted keyword comes from some row |
| Sheet.KeywordsWellFormed | server.js:199-204 | every extracted keyword has a non-empty trimmed text and a non-empty trimmed match type |
| Sheet.BatchesPartition | server.js:232-233 | the stride batches concatenate back to the keyword list, in order, and each holds 1 to `size` keywords |
| Sheet.BatchesFlatten | src/server.js:187-188 | concatenating the batches from index `i` gives the keywords from `i` on |
| Sheet.BatchesSized | server.js:232-233 | every batch holds between 1 and `size` keywords |
| Sheet.BatchCount | server.js:232 | there are ceil((n - i) / size) batches: all but the last full, the last not empty |
| Broadcast.Registry.constructor | server.js:35 | the registry starts empty |
| Broadcast.Registry.Subscribe | server.js:43-93 | a connection gets the retry line and the connected message and is registered under its id; an id already present is replaced in place; the registry stays consistent |
| Broadcast.Registry.Cleanup | server.js:77-80 | `cleanup` removes this one id and nothing else |
| Broadcast.Registry.Visit | server.js:100-107 | one `forEach` step: a client whose write throws is cleaned up, any other receives the message |
| Broadcast.Registry.Publish | server.js:96-108 | afterwards exactly the registered clients whose write did not throw remain, in registration order; each of them received the framed message once; the failing ones are gone |
| Broadcast.DropMembers | server.js:79 | an id survives removal exactly when it was present and not removed |
| Broadcast.DropDistinct | server.js:83-87 | removal keeps the ids distinct |
| Broadcast.VisitStart | server.js:100 | before the `forEach`, nothing is visited and the registry is as it was |
| Broadcast.VisitFailed | server.js:103-106 | visiting a client whose write throws removes just that client and keeps every other entry |
| Broadcast.VisitKept | server.js:101-102 | visiting a client whose write succeeds delivers the message to it alone |
| Broadcast.VisitEnd | server.js:100-107 | after the whole snapshot, the survivors are exactly the non-failing clients, each with the message appended |
| RateLimit.TokenBucket.constructor | src/server.js:57-61 | the bucket starts full, refilled at start-up |
| RateLimit.TokenBucket.GetToken | src/server.js:63-79 | tokens stay within 0..50; a call waits at most once; it never takes a token from an empty bucket; without a wait it takes exactly one token after the refill check; after a wait it refills and leaves 49; the new state is `Take` of the old |
| RateLimit.RefillResets | src/server.js:67-70 | a refill is a reset, not an addition: the tokens left beforehand do not matter, and no wait follows |
| RateLimit.Burst | src/server.js:72-78 | within one interval the bucket serves exactly as many calls as it holds tokens without waiting, one token each |
| RateLimit.BurstThenWait | src/server.js:72-74 | the next call in the same interval waits exactly once, for a whole interval, and leaves the bucket one token short of full |
| RateLimit.EmptyWaits | src/server.js:72-74 | an empty bucket within the interval makes the call wait once |
| RateLimit.CallsSnoc | src/server.js:63-79 | a run of calls followed by one more is that call on the state the run left |
| Job.KeywordCalls | src/server.js:57-86 | one keyword's calls, made from the state the job's earlier calls left, continue those calls. Together they leave the limiter's state and the sum of the waits, and they all fall within the job's time |
| Retry.Respond | src/server.js:112-134 | an attempt that goes on does so after a rate-limit pause or a backoff |
| Retry.RespondAgain | src/server.js:112-132 | a 429 pauses 60 s and keeps the retry count; any other retried failure waits `5000 * 2^retryCount` ms, uses one retry and happens only below three |
| Retry.Policy | src/server.js:83-136 | the attempts for one keyword use at most the replies given, and stall only when they run out |
| Retry.PolicyBounds | src/server.js:128-134 | every attempt but the last is followed by one pause, and at most three of the pauses are backoffs |
| Retry.BackoffDelays | src/server.js:130 | the backoffs are 5 s, 10 s and 20 s |
| Retry.AlwaysFailing | src/server.js:117-134 | a keyword whose replies all fail without 429 is tried exactly four times, with the three backoffs between, and ends with the fourth error |
| Retry.RateLimitsAreFree | src/server.js:112-115 | any run of 429s in front of the other replies leaves the outcome and the backoffs unchanged, adding a 60 s pause and one attempt each |
| Retry.RateLimitStep | src/server.js:112-115 | one 429 adds a 60 s pause and one attempt and keeps the retry count |
| Retry.RateLimitThenAnswer | src/server.js:112-126 | a 429 followed by an answer costs exactly one 60 s pause and gives that answer |
| Retry.BackoffsInOrder | src/server.js:129-132 | the backoffs are taken in retry order: the k-th waits `5000 * 2^k` |
| Retry.WalkPolicy | src/server.js:114 | attempts that each pause are the policy's first pauses, followed by the policy from the next reply with the count reached |
| Retry.WalkFinish | src/server.js:122-134 | the first attempt that finishes decides the outcome, after the pauses so far |
| Retry.WalkExhausted | src/server.js:83-136 | when the replies run out after attempts that all paused, the policy stalls with those pauses |
| Job.OneEntryEach | src/server.js:190-204 | every keyword whose attempts end lands in exactly one of `results` and `errors` |
| Job.Tallied | src/server.js:187-207 | the analyses of the first k keywords are k in number and use no more replies than given |
| Job.TalliedInOrder | src/server.js:190 | the m-th analysis is that of the m-th keyword |
| Job.StallsPersist | src/server.js:192 | once a keyword's attempts stall, the replies are used up and every later keyword stalls too |
| Job.AllFailing | src/server.js:190-204 | a sheet of k keywords whose replies all fail without 429 uses 4k replies and ends with no results and k errors |
| Job.GaveUpNot429 | src/server.js:201-203 | a failure that reaches the batch loop comes from a reply that was not a 429, and carries that reply's message |
| Job.TracksCover | src/server.js:212-215 | at completion, `results` and `errors` together hold one entry per keyword |
| Job.TracksStep | src/server.js:192-199 | a keyword that did not stall appends its entry to `results` or `errors`, and the next keyword's attempts start after its own |
| Job.PacedStep | src/server.js:197-206 | after one more keyword: one more keyword pause, and one more cooldown exactly when its error mentions "429" |
| Job.BatchTotal | src/server.js:187-209 | the stride loop makes ceil(n / 2) batches |
| Job.ProcessingState.constructor | src/server.js:22-32 | the initial `processingState`: idle, not processing, zero counts, empty lists, no times, no current keyword |
| Job.ProcessingState.AnalyzeKeyword | src/server.js:83-136 | the loop that replaces the self-call gives the outcome, attempt count and non-waiting pauses of the retry policy; it takes one token per attempt, at that attempt's start (`now`, then the end of the previous attempt's pause), so the bucket and the token waits are those of the limiter called at those times; the clock advances by exactly the pauses taken |
| Job.ProcessingState.Attempt | src/server.js:85-134 | one attempt takes a token at its start, notes the keyword and responds to its reply as the policy says; a retry's pause ends at the next attempt's start |
| Job.ProcessingState.TakeToken | src/server.js:85-86 | one `getToken` call, plus its wait when there is one, and then `currentKeyword` |
| Job.ProcessingState.ProcessKeyword | src/server.js:190-206 | one keyword's outcome is the policy's. A success appends one result, increments `processedCount` and sets `lastUpdateTime` to the time its attempts ended. A failure appends one error and leaves the count and the time alone. One 1 s pause follows, plus a 60 s cooldown exactly when the error mentions "429". `currentKeyword` is the keyword once an attempt was made, and the bucket ends as the limiter's calls at the attempts' starts leave it |
| Job.ProcessingState.JobKeyword | src/server.js:190-206 | one keyword analysed within a job: the outcome, entries, count, time and pauses that ProcessKeyword states, and the keyword's calls to the rate limiter, at its attempts' starts, appended to the job's calls so far. The limiter's state and the job's token waits are those of all these calls, all within the job's time |
| Job.ProcessingState.Record | src/server.js:192-206 | the bookkeeping after a keyword's attempts end: its entry, the count and time of a success, and exactly the pauses that follow, the cooldown after a "429" error and then the 1 s pause |
| Job.AftermathPauses | src/server.js:201-206 | the pauses after a keyword add their length to the clock, one 1 s pause and one cooldown exactly after a "429" error, and no token wait |
| Job.KeywordPauses | src/server.js:85-206 | a keyword's pauses count one 1 s pause unless it stalled, a cooldown exactly after a "429" error, no batch pause, and keep the attempt starts of its attempts |
| Job.KeywordTracked | src/server.js:190-206 | a keyword's entry takes the job from the tracked state of d keywords to that of d + 1, with one more result exactly on success, or leaves it unchanged when its attempts stall |
| Job.ProcessingState.ProcessBatch | src/server.js:190-207 | the keywords of one batch in order keep the results, errors and pause counts those of the keywords done; it stops only at a stalled keyword. The rate limiter is in the state that one `getToken` call per attempt leaves, calls made between the job's start and the clock, and the token waits are those calls' waits. |
| Job.ProcessingState.KeywordStep | src/server.js:190-206 | one keyword moves the job from the state of d keywords to that of d + 1, or stalls and changes none of the counts. Its attempts' calls to the rate limiter extend the job's calls so far |
| Job.ProcessingState.RunBatches | src/server.js:187-210 | the batch loop finishes every keyword unless one stalls, keeps `processedCount == |results|`, and takes one pause per keyword, one per batch and one per "429" error. The rate limiter is in the state that one `getToken` call per attempt leaves, calls made between the job's start and the clock, and the token waits are those calls' waits. |
| Job.ProcessingState.AnalyzeBulk | src/server.js:139-223 | 409 while a job runs, job and rate limiter unchanged; a missing or unreadable file goes to the error state with one error entry and no response, the rate limiter unchanged; 400 for a sheet without keywords, job and rate limiter unchanged; otherwise the job starts and runs as `Ran` says. The rate limiter ends as one `getToken` call per attempt of the job leaves it, every call made during the job, and the token waits are those calls' waits |
| Job.ProcessingState.Run | src/server.js:167-215 | the reset job's final state: results and errors those of the keywords analysed; completed, not processing and with no current keyword once all are done, each with one entry; the pause counts. The rate limiter ends as one `getToken` call per attempt of the job leaves it, every call made during the job, and the token waits are those calls' waits |
| Job.ProcessingState.Reset | src/server.js:167-177 | the reset: processing, zero processed, n keywords, empty results and errors, both times now, no current keyword |
| Job.ExportRows | src/server.js:236-242 | one exported row per result |
| Job.Download | src/server.js:226-242 | 404 "No results available" exactly when there are no results; otherwise the header row, then `|results| + 1` rows of three cells whose rows after the header read back as the results, in order, so the export loses nothing |
| Job.ExportImport | src/server.js:237-241 | a result's row has three cells and reads back as that result |
| Job.ExportRowsAt | src/server.js:236-242 | row j of the export is the row of result j |
| Job.RowsRectangular | src/server.js:237-241 | every exported row has three cells |
| Job.RowsRoundTrip | src/server.js:236-242 | reading the exported rows back gives the results |
| Job.DownloadRows | src/server.js:235-242 | the header row, then one row per result in order (`|results| + 1` rows): keyword, match type, status label |
| Job.StatusLabels | src/server.js:240 | the label is "Relevant" exactly for relevant results and "Not Relevant" exactly for the others |
| Streaming.AnalyzeKeywordEvents | server.js:111-173 | a call publishes 'processing' first and only events about its own keyword; it publishes 'completed' exactly when the body parsed and 'error' exactly when it throws; the verdict is the reading of the reply |
| Streaming.Entries | server.js:235-262 | the first k keywords give k result entries |
| Streaming.EntriesAt | server.js:238-259 | entry m is keyword m's: its classification, or an error entry with the error's message |
| Streaming.ProcessKeywords | server.js:226-288 | every keyword is processed once. `processedCount == |results| == n`, and entry m belongs to keyword m. The breaker counter is the trailing failure run mod 3. The run takes one 100 ms pause per keyword, one 30 s pause per breaker trip and ceil(n / 10) - 1 batch pauses. It ends with 'complete' |
| Streaming.NextBatch | server.js:232-278 | one pass of the outer loop: the batch, then the batch pause only when more keywords follow |
| Streaming.ProcessBatch | server.js:235-273 | the inner loop runs the loop body once per keyword of the batch, in order |
| Streaming.BatchPasses | server.js:232-273 | the keywords inside a batch are not separated by batch pauses |
| Streaming.ProcessKeyword | server.js:235-273 | the loop body: analyse, record the entry, then reset the counter and publish progress on success, or count the failure and pause for the breaker at the third; then pause 100 ms |
| Streaming.RunSummary | server.js:226-288 | the whole run: one entry per keyword in order, the breaker counter, and the pause counts of each kind |
| Streaming.RunResults | server.js:238-261 | each keyword, success or failure, is processed once and adds its entry |
| Streaming.RunErrors | server.js:240-267 | between keywords the breaker counter is the trailing failure run mod 3, so it stays in 0..2 |
| Streaming.RunPauses | server.js:264-278 | after k keywords: k keyword pauses, one breaker pause per trip, one batch pause per boundary crossed, nothing else |
| Streaming.SettleAdvancePauses | server.js:264-278 | one batch boundary and one loop pass move the pause counts from those of j keywords to those of j + 1 |
| Streaming.SettlePauses | server.js:276-278 | a batch pause is added exactly in front of a keyword that opens a batch other than the first |
| Streaming.AdvancePauses | server.js:264-272 | one loop pass adds the keyword pause, and the breaker pause exactly after the failure that reaches three |
| Streaming.TripsWhen | server.js:251-268 | a keyword trips the breaker exactly when it fails and brings the counter to three |
| Streaming.CounterStep | server.js:251-267 | one more failure moves the counter to the failure run mod 3 |
| Streaming.AftermathFilters | server.js:242-268 | after the analysis: a progress report only after a success; one breaker pause only after the failure that reaches three; no announcement |
| Streaming.AllFailing | server.js:264-268 | when every reply fails, the breaker pauses after every third keyword |
| Streaming.BatchGapCount | server.js:276-278 | the batch pauses number ceil(n / 10) - 1 |
| Streaming.BatchStartMultiple | server.js:232 | a keyword opens a batch exactly when its index is a multiple of 10 |
| Streaming.BatchInterior | server.js:232-235 | no keyword inside a batch opens one, except its first |
| Streaming.PercentRange | server.js:246 | `percentComplete` stays within 0..100, never decreases as more keywords are processed, and is 100 once all are |
| Streaming.PercentRounds | server.js:246 | the percentage is within half a point of 100 p / n, halves rounded up |
| Streaming.AnalysisFilters | server.js:115-119 | one analysis announces its keyword once and carries no progress |
| Streaming.AdvanceAnnounced | server.js:235-237 | one loop pass announces its own keyword and no other |
| Streaming.AdvancePercents | server.js:242-247 | one loop pass adds the percentage of keywords processed when its keyword succeeds, and nothing otherwise |
| Streaming.SettleAdvancePercents | server.js:242-247 | the same across a batch boundary, from a state that has seen j keywords |
| Streaming.StepPercents | server.js:242-247 | keyword j adds `round((j + 1) / n * 100)` to the progress reports exactly when it succeeds |
| Streaming.RunAnnounces | server.js:235-237 | the run announces every keyword once, in keyword order |
| Streaming.RunProgress | server.js:242-247 | one progress report per success, never decreasing, and never above the share processed so far or 100 |
| Streaming.ProgressReachesHundred | server.js:246 | the last report is 100 when the last keyword succeeds |
| Streaming.Admit | server.js:176-207 | the checks in the handler's order: missing API key gives 500, missing file 400, missing topic 400, unreadable workbook 500 with its message; admitted exactly when all pass. The admitted keywords are those of the data rows after the header: every row whose first cell gives a keyword contributes it, none comes from elsewhere, and each is trimmed, non-empty and has a non-empty trimmed match type |
| Streaming.EmptySheetAdmitted | server.js:196-223 | a sheet with no keyword is admitted |
| Streaming.AnalyzeBulk | server.js:176-305 | a refused request gets its error response and publishes nothing; an admitted one answers with the keyword count, publishes 'start', runs the keywords and publishes 'complete' |
| Streaming.Announce | server.js:211-216 | 'start' with the count, the run, then 'complete' |

## Left out

- HTTP routing and middleware are not modelled. This covers Express, CORS, static files, the request timeout, the root, 404 and error handlers, and the status endpoint (src/server.js:49-54), which only returns a snapshot of the state.
- Upload handling and workbook loading are not modelled: multer and ExcelJS. An upload is a `Workbook` that is unloadable with a message, or the rows of its first worksheet as optional cell strings.
- The download's xlsx writing, its headers and its 500 path (src/server.js:244-259) are left out: the export stops at the rows of strings.
- The `fetch` request body, headers and model parameters are left out. So is the topic's use inside the prompt: the oracle is a supplied sequence of replies. `src/server.js` never checks the topic.
- `Date.now()` and `setTimeout` are not modelled: time is an integer clock and each sleep is a recorded `Pause`. The oracle answers without latency. The timestamp that `sendProgressUpdate` adds is dropped.
- The SSE specifics of server.js are left out: the response headers, the 15 s heartbeat (57-70), socket keep-alive and the random client ids (44). A connection's id is a parameter; which writes throw is a parameter set.
- Console logging is left out.
- Concurrency is left out. Two submissions can interleave across the `await` between the 409 check and the reset of src/server.js, and the model does not capture that: each submission is one atomic step. `server.js` starts `processKeywords` in the background; the model runs it after the response.
- Unicode is simplified. `toLowerCase` lower-cases ASCII only, and `trim` removes a fixed set of eight whitespace characters.
- Floating point is replaced by exact arithmetic. `Math.round(p / n * 100)` is the exact quotient of 200p + n by 2n, and `Math.pow(2, k) * 5000` is exact.
- Job.ProcessingState.ProcessBatch: `lastUpdateTime` is only bounded by the job's start and the clock and `currentKeyword` is not stated, because only the status endpoint (src/server.js:49-54) reads them and it is not modelled; Job.ProcessingState.ProcessKeyword states both exactly for one keyword. The rate limiter's state is that of one call per attempt, made at times within the job but not pinned to each attempt's start, because the source promises nothing that ties one job's limiter state to the next job; Job.ProcessingState.AnalyzeKeyword pins the times for each keyword.
- Job.ProcessingState.KeywordStep: `lastUpdateTime` is only bounded by the job's start and the clock and `currentKeyword` is not stated, because only the status endpoint (src/server.js:49-54) reads them and it is not modelled; Job.ProcessingState.ProcessKeyword states both exactly for one keyword. The rate limiter's state is that of one call per attempt, made at times within the job but not pinned to each attempt's start, because the source promises nothing that ties one job's limiter state to the next job; Job.ProcessingState.AnalyzeKeyword pins the times for each keyword.
- Job.ProcessingState.RunBatches: `lastUpdateTime` is only bounded by the job's start and the clock and `currentKeyword` is not stated, because only the status endpoint (src/server.js:49-54) reads them and it is not modelled; Job.ProcessingState.ProcessKeyword states both exactly for one keyword. The rate limiter's state is that of one call per attempt, made at times within the job but not pinned to each attempt's start, because the source promises nothing that ties one job's limiter state to the next job; Job.ProcessingState.AnalyzeKeyword pins the times for each keyword.
- Job.ProcessingState.Ran: `lastUpdateTime` is only bounded by the job's start and the clock and `currentKeyword` is not stated, because only the status endpoint (src/server.js:49-54) reads them and it is not modelled; Job.ProcessingState.ProcessKeyword states both exactly for one keyword.
- Job.ProcessingState.Run: the rate limiter's state after the job is that of one call per attempt, made at times the contract places within the job but not pinned to each attempt's start, because the source promises nothing that ties one job's limiter state to the next job; Job.ProcessingState.AnalyzeKeyword pins the times for each keyword.
- Job.ProcessingState.AnalyzeBulk: the rate limiter's state after a started job is that of one call per attempt, made at times the contract places within the job but not pinned to each attempt's start, because the source promises nothing that ties one job's limiter state to the next job; Job.ProcessingState.AnalyzeKeyword pins the times for each keyword.
- Job.ProcessingState.AnalyzeKeyword: an oracle call that never settles, or an endless run of 429 answers, would make the source wait forever; the model stands for both with the replies running out. The keyword's attempts then end as `Stalled`, and the job stays processing. Replies that all fail without a 429 are not a stall: they end in `GaveUp` after four attempts, as Retry.AlwaysFailing states.
- RateLimit.TokenBucket.GetToken: requires `lastRefill <= now`, because every reading of `Date.now()` comes no earlier than the one recorded at the last refill.
- Streaming.ProcessKeywords: takes one reply per keyword, because server.js calls the oracle exactly once per keyword.
- The 'Processing failed' event of server.js (291-297) is left out, because no exception escapes `processKeywords` in the model.
- The per-keyword `processing` event's `status` field and the 'start' event's message text are left out; the events carry only the fields the properties use.
