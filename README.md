# traceMS pipeline: a verified model

traceMS is a demonstration of a traced microservice pipeline. A Go gateway receives a
payload, normalises it and passes it through a configurable chain of Python services:

- a validator, which refuses empty input and over-long text;
- a transformer, which upper-cases text;
- an enricher, which merges a timestamp and an id into the metadata;
- a persister, which reports the data as stored.

Each service appends one step record. The gateway streams its progress as server-sent events:

- `started`;
- one `step` per service;
- then either `done` or an `error` naming the failed service.

Calls go through a retry loop with exponential backoff and a per-service circuit breaker.

The pipeline itself is read from YAML files or kept in memory, and can be edited over
`/api/pipeline`. Two browser clients read the stream:

- a dashboard, which decodes it and drives a board of stations with a moving "train" along a snake-shaped rail;
- a Vue front end, whose decoder is the same and which keeps a run-history ledger in local storage.

The Dafny project models these rules and proves what the code promises about them. Parsing and
printing JSON and YAML, the environment, the clock, the file system and every downstream
call are parameters, so each lemma holds for all of them.

The project has one module per component:

| module | models |
|---|---|
| `Wrappers`, `Strings`, `Json`, `Environment` | results and options; the trims of JavaScript, Go and Python; splitting and searching; JSON values with JavaScript truthiness and Go/Python map reads; `os.Getenv` |
| `SseDecoder` | the front end's stream decoder, a loop proved to be chunking-independent |
| `DashboardSse` | the dashboard's `parseSSE`, proved to agree with `SseDecoder` |
| `Layout` | grid positions, and the rail path drawn by nested loops |
| `Preview` | the payload preview policy and attribute escaping |
| `RunState`, `Dashboard` | the station board as a state machine, and the page as a class whose methods follow it |
| `RunHistory` | the run ledger as a class with a persisted copy |
| `PipelineConfig` | URL normalisation, and the memory and file-cache storage of the pipeline as a class |
| `PipelineApi` | `GET`/`PUT /api/pipeline` |
| `GatewayPayload` | normalising payloads, service request bodies and previews |
| `StreamHandler`, `SseWire` | `processStream`, `runPipeline` and `processJSON`, and the event frames on the wire decoded by the client |
| `Breaker`, `HttpClient` | the circuit breaker class, the client configuration, and the retry loop |
| `Services` | the four Python services |

## Model

| member | source | states |
|---|---|---|
| Breaker.AllowStep | gateway/circuitbreaker.go:45-67 | `Allow` keeps the set of keys and every other key's circuit |
| Breaker.SuccessStep | gateway/circuitbreaker.go:70-79 | `Success` keeps the set of keys (no entry created) and every other key's circuit |
| Breaker.FailureStep | gateway/circuitbreaker.go:82-107 | `Failure` adds exactly the key, and leaves every other key's circuit alone |
| Breaker.AllowPasses | gateway/circuitbreaker.go:49-55 | an unknown key, or a closed or half-open circuit, is allowed and nothing changes |
| Breaker.AllowOpen | gateway/circuitbreaker.go:56-62 | on an open circuit the call is allowed iff the cooldown has passed since the last failure, which moves it to half-open with `lastTry = now`; otherwise nothing changes |
| Breaker.SuccessCloses | gateway/circuitbreaker.go:73-78 | success on an unknown key changes nothing; on a known key the circuit is closed, its count is 0 and its last failure is kept |
| Breaker.FailureReopens | gateway/circuitbreaker.go:91-97 | a failure when half-open reopens the circuit, sets the count to the threshold, and sets `lastFailure` and `lastTry` to now |
| Breaker.FailureCounts | gateway/circuitbreaker.go:98-106 | a failure when closed (or on a new key) restarts the count at 1 if the last failure is older than the window, and adds 1 otherwise. The circuit opens exactly when the count reaches the threshold |
| Breaker.StepsKeepConsistent | gateway/circuitbreaker.go:45-107 | all three operations keep every circuit consistent: one that is not closed has a recorded failure and at least `threshold` failures |
| Breaker.CloseFailuresOpen | gateway/circuitbreaker.go:98-106 | failures that follow one another within the window add up: the count grows by their number, and the circuit ends open exactly when it was open or the count reached the threshold |
| Breaker.CircuitBreaker.constructor | gateway/circuitbreaker.go:34-42 | a new breaker has no circuits and the given threshold, window and cooldown |
| Breaker.CircuitBreaker.Allow | gateway/circuitbreaker.go:45-67 | updates the record in place; the verdict and the new table are `AllowStep` of the old table |
| Breaker.CircuitBreaker.Success | gateway/circuitbreaker.go:70-79 | the new table is `SuccessStep` of the old one |
| Breaker.CircuitBreaker.Failure | gateway/circuitbreaker.go:82-107 | the new table is `FailureStep` of the old one, creating a closed record for a new key |
| HttpClient.Wrap64 | gateway/httputil.go:43 | `time.Duration` arithmetic wraps into the signed 64-bit range and is the identity inside it |
| HttpClient.Clamp64 | gateway/httputil.go:28 | `strconv.Atoi` saturates out-of-range values into the signed 64-bit range |
| HttpClient.Atoi | gateway/httputil.go:28 | the parsed value is always a 64-bit integer, with 0 on a syntax error |
| HttpClient.AtoiOfDecimal | gateway/httputil.go:28 | the decimal text of a number reads back as that number |
| HttpClient.AtoiOfNegative | gateway/httputil.go:28-30 | a minus sign before a positive number reads as negative |
| HttpClient.IntEnv | gateway/httputil.go:23-33 | an integer setting with a non-negative default is never negative |
| HttpClient.IntEnvReads | gateway/httputil.go:23-33 | a non-negative decimal value is taken as it is; a negative value gives the default |
| HttpClient.BackoffMs | gateway/httputil.go:45-48 | the first backoff in milliseconds is at least 1: a value that is not positive becomes 100 |
| HttpClient.LoadClientConfig | gateway/httputil.go:22-56 | the retry count and the failure threshold are never negative |
| HttpClient.ConfigDefaults | gateway/httputil.go:45-55 | with nothing set, there are 3 retries, a 100 ms backoff, a threshold of 5, a 30 s window and a 30 s cooldown |
| HttpClient.BackoffBaseIsMs | gateway/httputil.go:51 | the base backoff is the millisecond setting times a millisecond, so at least 1 ms |
| HttpClient.NextBackoff | gateway/httputil.go:87-90 | the next wait never exceeds 5 s |
| HttpClient.RetrySent | gateway/httputil.go:77-111 | at most `MaxRetries + 1` requests are sent, and each one is reported to the breaker exactly once |
| HttpClient.RetryUnfold | gateway/httputil.go:92-106 | a retryable outcome reports `Failure`, records its error and goes on with the next attempt, after a wait from the second attempt on |
| HttpClient.EarlierFailedCons | gateway/httputil.go:92-106 | one more retried attempt in front keeps "every attempt but the last failed" |
| HttpClient.RetryEarlier | gateway/httputil.go:92-106 | every attempt before the last was retryable (a network error, 429 or 5xx) and was reported as a failure |
| HttpClient.LastReportedCons | gateway/httputil.go:92-109 | a retried attempt in front keeps the classification of the last one |
| HttpClient.RetryLast | gateway/httputil.go:98-109 | the last attempt decides the result: 2xx and other non-retryable statuses are returned and reported as a success; a retryable one is reported as a failure |
| HttpClient.RetryErrors | gateway/httputil.go:82-111 | when no response is returned, the error is the context's error (the wait was cancelled) or the last attempt's error text ("HTTP <status>" for a status) |
| HttpClient.RetryWaits | gateway/httputil.go:76-91 | the waits are the successive backoffs from the base, one per retry and none before the first attempt |
| HttpClient.WaitsCapped | gateway/httputil.go:87-90 | every wait after the first is at most 5 s |
| HttpClient.BackoffShift | gateway/httputil.go:87-90 | the backoff after one step is the next term of the sequence |
| HttpClient.PostRefused | gateway/httputil.go:71-73 | when the breaker refuses, no request is sent, nothing is reported and the error is "service unavailable (circuit open)" |
| HttpClient.PostAllowed | gateway/httputil.go:74-111 | when allowed, between 1 and `MaxRetries + 1` requests are sent, with the classification, error and wait properties above |
| HttpClient.BackoffGrowth | gateway/httputil.go:76-91 | the j-th wait is `min(base * 3^j, 5 s)` |
| HttpClient.ReplayOtherKeys | gateway/httputil.go:95-108 | the reports of one call touch only that call's circuit key |
| HttpClient.ReplayAppend | gateway/httputil.go:95-108 | reporting one more outcome applies one more breaker step |
| HttpClient.RetryAccSplits | gateway/httputil.go:77-110 | the loop's accumulated trace is the trace so far followed by the trace of the remaining attempts |
| HttpClient.RetryAccRetry | gateway/httputil.go:92-106 | one retried attempt extends the accumulated trace by its report and its wait |
| HttpClient.TraceShift | gateway/httputil.go:77-110 | regrouping the accumulated parts of a trace does not change it |
| HttpClient.Report | gateway/httputil.go:95-108 | reporting an outcome to the breaker applies `Failure` or `Success` to the key |
| HttpClient.PostWithRetryAndCircuit | gateway/httputil.go:70-112 | consults `Allow` once. The result, the number of requests and the waits are those of the retry specification, and the breaker ends with every report applied in order |
| HttpClient.RetryLoop | gateway/httputil.go:74-111 | the `for attempt` loop computes the retry specification, and the breaker table is the old one with its reports replayed |
| SseDecoder.EventsOfAppend | frontend/src/api.ts:51-65 | decoding consecutive groups of blocks gives their events in order |
| SseDecoder.EventsOfAtMostOnePerBlock | frontend/src/api.ts:51-65 | each block gives at most one event |
| SseDecoder.IgnoredLine | frontend/src/api.ts:54-62 | a line that is neither `event:` nor `data:` changes nothing |
| SseDecoder.NoDataNoEvent | frontend/src/api.ts:53-64 | a block with no `data:` line has null data, so no event |
| SseDecoder.LastEventLineWins | frontend/src/api.ts:52-55 | the event name is the trimmed text after `event:` on the last such line |
| SseDecoder.LastDataLineWins | frontend/src/api.ts:56-62 | a later `data:` line overwrites an earlier one |
| SseDecoder.BadJsonKeepsText | frontend/src/api.ts:57-61 | a payload that does not parse is kept as its trimmed text |
| SseDecoder.ScanIgnoresBlankLines | frontend/src/api.ts:70 | the blank lines the final flush appends change nothing |
| SseDecoder.FlushDecodesRemainder | frontend/src/api.ts:67-81 | decoding the remainder with `"\n\n"` appended is decoding the remainder |
| SseDecoder.BlankRemainderYieldsNothing | frontend/src/api.ts:67 | a whitespace-only remainder gives no event |
| SseDecoder.ChunkStep | frontend/src/api.ts:48-51 | after one more chunk, the buffer is the last piece of everything received, and the blocks emitted are those before it, in order |
| SseDecoder.BufferHasNoSeparator | frontend/src/api.ts:49-50 | the buffer never contains `"\n\n"` |
| SseDecoder.ReadLines | frontend/src/api.ts:52-63 | the line loop computes the block's event name and data |
| SseDecoder.EmitBlocks | frontend/src/api.ts:51-65 | the block loop emits exactly the decoded events of the blocks, in order |
| SseDecoder.ProcessStream | frontend/src/api.ts:41-81 | the events emitted for a chunk sequence are the decoding of their concatenation, whatever the chunk boundaries |
| DashboardSse.EventNameAgrees | dashboard/dashboard.js:375 | replacing the first `event:` of a line that starts with it gives the same name as slicing |
| DashboardSse.DataValueAgrees | dashboard/dashboard.js:376-378 | the dashboard's `data:` value is the front end's |
| DashboardSse.DashLineStepAgrees | dashboard/dashboard.js:374-379 | both decoders treat a line the same way |
| DashboardSse.DashScanAgrees | dashboard/dashboard.js:372-379 | both decoders read a block the same way |
| DashboardSse.DashBlocksAgree | dashboard/dashboard.js:370-381 | both decoders emit the same events for the same blocks |
| DashboardSse.ParseSSEAgrees | dashboard/dashboard.js:367-383 | `parseSSE` emits the events of every segment but the last, in order; its remainder is exactly the last segment and holds no `"\n\n"` |
| DashboardSse.NoSeparatorAfterNewline | dashboard/dashboard.js:553 | one newline after text that does not end in a newline creates no separator |
| DashboardSse.FlushCaseNoTrailingNewline | dashboard/dashboard.js:553 | the final `parseSSE(buf + "\n\n")` decodes the remainder as one block when it does not end in a newline |
| DashboardSse.FlushCaseTrailingNewline | dashboard/dashboard.js:553 | the same when the remainder ends in a single newline |
| DashboardSse.FlushCaseEndsInNewline | dashboard/dashboard.js:553 | the same for any remainder ending in a newline |
| DashboardSse.DashboardFlushAgrees | dashboard/dashboard.js:552-553 | the dashboard's final flush gives the front end's final events |
| Layout.NumRows | dashboard/dashboard.js:300 | the row count is at least 1, and is `ceil(n / 5)` for a non-empty track |
| Layout.Range | dashboard/dashboard.js:319 | the column list has `k` entries |
| Layout.RangeIndex | dashboard/dashboard.js:319 | the columns are `0 .. k - 1` in order |
| Layout.Reverse | dashboard/dashboard.js:320 | reversing keeps the length |
| Layout.ReverseIndex | dashboard/dashboard.js:320 | reversing reads the columns from the end |
| Layout.StationPoints | dashboard/dashboard.js:322-325 | one point per column |
| Layout.StationPointsIndex | dashboard/dashboard.js:322-325 | the row's points are its columns in order |
| Layout.RowCountPositive | dashboard/dashboard.js:317 | every row holds between 1 and 5 stations |
| Layout.RowColsOrder | dashboard/dashboard.js:317-320 | row r has `min(5, n - 5r)` columns, ascending on even rows and descending on odd rows |
| Layout.RowSegmentShape | dashboard/dashboard.js:316-330 | a row is its station points, followed on every row but the last by a corner point at the row's last column on the next row |
| Layout.RowSegmentLength | dashboard/dashboard.js:316-330 | a row contributes its station count, plus 1 unless it is the last row |
| Layout.PathRowsLength | dashboard/dashboard.js:316-331 | the first k rows hold `min(5k, n) + min(k, numRows - 1)` points |
| Layout.RailPathLength | dashboard/dashboard.js:311-335 | the rail has no points for an empty track and `n + numRows - 1` otherwise |
| Layout.PathRowsPrefix | dashboard/dashboard.js:316-331 | the points of fewer rows are a prefix of the points of more rows |
| Layout.PrefixOfAppend | dashboard/dashboard.js:324 | pushing more points keeps the earlier points as a prefix |
| Layout.RowSegmentInPath | dashboard/dashboard.js:316-331 | row r's segment sits in the rail between the lengths of the first r and r + 1 rows |
| Layout.GridPositionInside | dashboard/dashboard.js:302-303 | a station's position is `(index div 5, index mod 5)` with no reversal on odd rows |
| Layout.GridPositionNegative | dashboard/dashboard.js:301 | a negative index is at (0, 0) |
| Layout.GridPositionClamped | dashboard/dashboard.js:304-307 | an index past the end is placed at the last station |
| Layout.GridPositionEmptyTrack | dashboard/dashboard.js:300-307 | on an empty track a non-negative index gets the JavaScript remainder `-1 % 5 = -1` as its column |
| Layout.GridPositionInjective | dashboard/dashboard.js:302-303 | different stations have different positions |
| Layout.SegmentPointInPath | dashboard/dashboard.js:316-331 | every point of a row is on the rail |
| Layout.SliceMember | dashboard/dashboard.js:324 | an element of a slice of the points is one of the points |
| Layout.StationOnRail | dashboard/dashboard.js:298-331 | every station's grid position is one of the points the rail passes through |
| Layout.TrainOnRail | dashboard/dashboard.js:337-353 | wherever the train stops at a station, it is drawn exactly on a rail point |
| Layout.PathRowsStep | dashboard/dashboard.js:316-331 | one pass of the outer loop appends the row's points and, except on the last row, its corner |
| Layout.RowColumns | dashboard/dashboard.js:317-320 | the column loop, then the reversal on odd rows, gives the row's column order |
| Layout.PushStations | dashboard/dashboard.js:322-325 | the inner loop appends one point per column |
| Layout.DrawRow | dashboard/dashboard.js:316-330 | one row of the outer loop extends the first r rows to the first r + 1 |
| Layout.DrawRailPath | dashboard/dashboard.js:311-335 | the nested loops produce exactly the rail path |
| GatewayPayload.FromRequestCases | gateway/handlers.go:394-421 | in order: a `payload` map is taken as it is; non-nil `type` and `data` are kept with `metadata`, `{}` when nil; a string `text` becomes a text payload; otherwise empty text. A payload built here holds the three keys, and normalising it again changes nothing |
| GatewayPayload.FirstNonEmpty | gateway/handlers.go:431-442 | the chosen data is empty or one of the candidates |
| GatewayPayload.FromReplyFields | gateway/handlers.go:423-448 | a `payload` map wins; otherwise the type is a string `type` or "text"; the data is the first non-empty string of `data`, `text` and `result`; the metadata is `{}` when nil |
| GatewayPayload.BodyForServiceText | gateway/handlers.go:450-460 | the body carries the payload and the steps; its `text` is the payload's data exactly when the type is "text", and "" otherwise |
| GatewayPayload.PreviewShape | gateway/handlers.go:494-511 | nil gives ""; a media type gives "[t] N chars"; other data is kept when at most 80 long, otherwise cut to 80 with "…" |
| GatewayPayload.SvcIconShape | gateway/handlers.go:38-44 | the icon is never blank: a trimmed non-blank icon is kept, a blank one becomes "•", and a second pass changes nothing |
| PipelineApi.NormalizeAll | gateway/handlers.go:113-144 | one stored service per submitted service |
| PipelineApi.Names | gateway/handlers.go:114 | one trimmed name per service |
| PipelineApi.NamesIndex | gateway/handlers.go:114 | the k-th name is the k-th service's trimmed name |
| PipelineApi.FreshCons | gateway/handlers.go:115-123 | names in front are acceptable iff the first is non-empty and unseen and the rest are acceptable with it seen |
| PipelineApi.BadAtTail | gateway/handlers.go:115-123 | a refusal after the first name is a refusal in the rest |
| PipelineApi.CheckAccepts | gateway/handlers.go:113-144 | the loop accepts iff every trimmed name is non-empty and new, and then yields exactly the normalised services |
| PipelineApi.CheckPassesFirst | gateway/handlers.go:113-123 | a good first name passes a later refusal through |
| PipelineApi.CheckRefusesFirst | gateway/handlers.go:115-122 | a bad first name is refused with its own message |
| PipelineApi.RefusalInTail | gateway/handlers.go:115-123 | the first bad name lies in the tail when it is not the first |
| PipelineApi.RefusalLifts | gateway/handlers.go:113-123 | a refusal in the tail is the list's refusal |
| PipelineApi.CheckRefuses | gateway/handlers.go:113-123 | the first bad name is reported: "Service name is required" for an empty one, "Duplicate service name: X" for a repeat |
| PipelineApi.ValidateOutcome | gateway/handlers.go:107-144 | an empty list is refused with "At least one service required". Otherwise the update is accepted iff every name is good, and then yields the normalised list; if not, the first bad name is reported |
| PipelineApi.NormalizedShape | gateway/handlers.go:124-143 | a stored service has its trimmed name, a non-blank icon and a URL that is empty or has a scheme; a missing type is "" |
| PipelineApi.PutRefusalKeepsState | gateway/handlers.go:102-123 | the reply has `ok: false` exactly for invalid JSON or a refused list, and then neither the files nor the stored pipeline change |
| PipelineApi.PutThenGetInMemory | gateway/handlers.go:145-151 | in memory mode an accepted update replies `saved: false`, and every later `GET` returns the normalised services |
| PipelineApi.PutSaveFailure | gateway/handlers.go:145-149 | a write that fails in file mode replies `ok: true, saved: false` with the error, and changes nothing |
| PipelineApi.ServicesJson | gateway/handlers.go:87-97 | one JSON object per service |
| PipelineApi.StoredJson | gateway/handlers.go:87-97 | one JSON object per stored service |
| PipelineApi.ServicesJsonIndex | gateway/handlers.go:88-96 | the i-th entry shows the i-th service, with its icon through `svcIcon` |
| PipelineApi.EchoStored | gateway/handlers.go:92 | for services whose icons are already normalised, the listing shows them as stored |
| PipelineApi.NormalizeAllIndex | gateway/handlers.go:113-144 | the i-th stored service is the i-th submitted one, normalised |
| PipelineApi.NormalizedIcons | gateway/handlers.go:124-127 | stored icons are fixed points of `svcIcon` |
| PipelineApi.ApiPipelineGet | gateway/handlers.go:77-99 | replies with the loaded pipeline, icons normalised; the storage state moves as `LoadPipeline` does |
| PipelineApi.PrependAssoc | gateway/handlers.go:136 | appending one service at a time builds the list in order |
| PipelineApi.NormalizeOne | gateway/handlers.go:124-143 | the loop body builds the normalised service |
| PipelineApi.CheckServices | gateway/handlers.go:107-144 | the validation loop, with its `seen` set, computes exactly the validation result |
| PipelineApi.ApiPipelinePut | gateway/handlers.go:101-152 | the reply, the files and the stored pipeline are the `PUT` specification's |
| PipelineConfig.SchemeOccurs | gateway/config.go:196 | "http://" + u contains "://" |
| PipelineConfig.WithSchemeShape | gateway/config.go:192-198 | the result is empty iff the input is, has a scheme otherwise, and is the input or "http://" + input |
| PipelineConfig.NormalizeURLShape | gateway/config.go:190-199 | the result is empty iff the trimmed input is, otherwise contains "://", and is the trimmed input or "http://" + it |
| PipelineConfig.WithSchemeFixed | gateway/config.go:195-198 | a URL with a scheme is kept |
| PipelineConfig.PrefixedTrimmed | gateway/config.go:191-196 | prefixing a trimmed URL with the scheme leaves nothing to trim |
| PipelineConfig.WithSchemeTrimmed | gateway/config.go:191-198 | adding the scheme to a trimmed URL keeps it trimmed |
| PipelineConfig.NormalizeURLIdempotent | gateway/config.go:190-199 | normalising twice is normalising once |
| PipelineConfig.DefaultPipeline | gateway/config.go:51-64 | the default is validator, transformer, enricher and persister, in that order |
| PipelineConfig.ReadServices | gateway/config.go:91-104 | a path that gives services gives at least one |
| PipelineConfig.FirstConfigured | gateway/config.go:74-86 | the services of the first candidate path that has any; none iff no path has any |
| PipelineConfig.FromFile | gateway/config.go:66-88 | the file pipeline is never empty |
| PipelineConfig.FromFileDefaults | gateway/config.go:87 | with no readable candidate, the four default services |
| PipelineConfig.MemorySetThenLoad | gateway/config.go:141-147 | in memory mode `SetPipeline(s)` succeeds, writes no file, and every later load returns s |
| PipelineConfig.MemoryLoadsOnce | gateway/config.go:150-157 | the first memory-mode load reads the files once and caches the result for every later load |
| PipelineConfig.CacheReuse | gateway/config.go:115-138 | in file mode the cache is reused exactly when usable (stat works, no newer mtime, same path, non-empty); otherwise the writable file is read, falling back to the read-only paths |
| PipelineConfig.FileSetClearsCache | gateway/config.go:163-180 | a file-mode save empties the cache and leaves it unusable |
| PipelineConfig.FileSetFailure | gateway/config.go:165-175 | a failed file write is returned and changes nothing |
| PipelineConfig.FileSetThenLoad | gateway/config.go:116-130 | after a file-mode save, the next load reads back what was saved and caches it with the file's mtime |
| PipelineConfig.LoadStable | gateway/config.go:107-158 | loading again after a load gives the same pipeline |
| PipelineConfig.LoadNonEmpty | gateway/config.go:107-158 | a load never returns an empty pipeline |
| PipelineConfig.PipelineStore.constructor | gateway/config.go:27-33 | the package variables start empty |
| PipelineConfig.PipelineStore.LoadPipelineFromFile | gateway/config.go:66-88 | the candidate loop returns the file pipeline |
| PipelineConfig.PipelineStore.LoadPipeline | gateway/config.go:107-158 | the pipeline returned and the new memory and cache variables are the load specification's |
| PipelineConfig.PipelineStore.SetPipeline | gateway/config.go:162-187 | the error, the files and the new variables are the save specification's |
| PipelineConfig.PipelineStore.PipelineNamesURLs | gateway/config.go:202-209 | the pairs of the loaded pipeline |
| Preview.Ellipsize | dashboard/dashboard.js:274 | text up to the limit is kept, longer text is cut with "…" |
| Preview.PlaceholderIff | dashboard/dashboard.js:241-245 | the preview is "—" exactly for null and "" |
| Preview.MediaIff | dashboard/dashboard.js:248-268 | image and video media are shown exactly for those types with a base64-looking value, which is then the content |
| Preview.JsonPreview | dashboard/dashboard.js:269-276 | JSON is re-stringified and cut at 120, or the raw text is cut at 80 when it does not parse |
| Preview.MediaLabelPreview | dashboard/dashboard.js:278-280 | binary, or media that do not look like base64, show "[t] N chars" over 60 characters and "[t]" otherwise |
| Preview.PlainPreview | dashboard/dashboard.js:281-283 | anything else shows its first 80 characters, with "…" when longer |
| Preview.ReplaceAllCharAppend | dashboard/dashboard.js:84-87 | a global replace works piece by piece |
| Preview.ReplaceAllCharAbsent | dashboard/dashboard.js:84-87 | replacing a character that does not occur changes nothing |
| Preview.ReplaceAllCharSingle | dashboard/dashboard.js:84-87 | the replace on one character |
| Preview.ChainOneChar | dashboard/dashboard.js:84-87 | the four replaces on one character are that character's escape |
| Preview.ChainAmp | dashboard/dashboard.js:84 | "&" becomes "&amp;" and stays so |
| Preview.AmpStays | dashboard/dashboard.js:85-87 | the later replaces leave "&amp;" alone |
| Preview.ChainQuot | dashboard/dashboard.js:85 | a quote becomes "&quot;" |
| Preview.QuotStays | dashboard/dashboard.js:86-87 | the later replaces leave "&quot;" alone |
| Preview.ChainLt | dashboard/dashboard.js:86 | "<" becomes "&lt;" |
| Preview.LtStays | dashboard/dashboard.js:87 | the last replace leaves "&lt;" alone |
| Preview.ChainGt | dashboard/dashboard.js:87 | ">" becomes "&gt;" |
| Preview.ChainPlain | dashboard/dashboard.js:84-87 | other characters are kept |
| Preview.ChainAppend | dashboard/dashboard.js:84-87 | the replace chain works piece by piece |
| Preview.EscapeAttrPerChar | dashboard/dashboard.js:82-88 | the chain of global replaces escapes each character independently |
| Preview.EscapedIsSafe | dashboard/dashboard.js:82-88 | escaped text holds no quote, "<" or ">" |
| Preview.UnescapeAmp | dashboard/dashboard.js:84 | decoding "&amp;" |
| Preview.UnescapeQuot | dashboard/dashboard.js:85 | decoding "&quot;" |
| Preview.UnescapeLt | dashboard/dashboard.js:86 | decoding "&lt;" |
| Preview.UnescapeGt | dashboard/dashboard.js:87 | decoding "&gt;" |
| Preview.UnescapePlain | dashboard/dashboard.js:82-88 | other characters decode as themselves |
| Preview.UnescapeStep | dashboard/dashboard.js:82-88 | decoding one escape gives back its character |
| Preview.EscapeRoundTrip | dashboard/dashboard.js:82-88 | decoding the escaped text gives back the text |
| Preview.EscapeAttrSpec | dashboard/dashboard.js:82-88 | `escapeAttr` of a value ("" for null) is reversible and safe inside a quoted attribute |
| RunHistory.RunRecordShape | frontend/src/useRunHistory.ts:11-20 | a value is kept exactly when it is an object with a string `traceId`, a number `timestamp`, a status of "ok" or "error", and number `stepsCount` and `durationMs` |
| RunHistory.ValidRuns | frontend/src/useRunHistory.ts:11-20 | the filter keeps only valid records |
| RunHistory.ValidRunsKeeps | frontend/src/useRunHistory.ts:11-20 | the filter keeps every valid record and only those |
| RunHistory.ValidRunsOfValid | frontend/src/useRunHistory.ts:11-20 | a list of valid records passes unchanged |
| RunHistory.LoadRuns | frontend/src/useRunHistory.ts:5-24 | whatever storage holds, the load yields only valid records |
| RunHistory.LoadNeverFails | frontend/src/useRunHistory.ts:7-10 | a missing or empty value, invalid JSON or a non-array give `[]` |
| RunHistory.LoadAfterSave | frontend/src/useRunHistory.ts:26-32 | what is saved loads back unchanged |
| RunHistory.ImportFailureKeepsLedger | frontend/src/useRunHistory.ts:61-63 | a failed import reports 0 imported and leaves the ledger unchanged |
| RunHistory.ImportSuccess | frontend/src/useRunHistory.ts:64-75 | a successful import reports the number of valid runs, even when truncation drops some, and the ledger is `(valid ++ old)[..500]` |
| RunHistory.ExportImportRoundTrip | frontend/src/useRunHistory.ts:50-75 | importing the export of ledger L into L succeeds, reports `\|L\|` and yields `(L ++ L)[..500]` |
| RunHistory.RunLedger.constructor | frontend/src/useRunHistory.ts:35 | the ledger starts as the load of storage |
| RunHistory.RunLedger.Save | frontend/src/useRunHistory.ts:26-32 | storage receives the serialised ledger, and a failed write is ignored |
| RunHistory.RunLedger.AddRun | frontend/src/useRunHistory.ts:45-48 | the ledger becomes `([record] ++ old)[..500]`, newest first, and is written to storage |
| RunHistory.RunLedger.ImportData | frontend/src/useRunHistory.ts:58-79 | report and ledger follow the import specification; storage is written only on success |
| RunHistory.RunLedger.ExportData | frontend/src/useRunHistory.ts:50-56 | the export is `{version: 1, exportedAt, runs}` of the ledger |
| RunHistory.RunLedger.ClearHistory | frontend/src/useRunHistory.ts:81-83 | the ledger is emptied and the empty list written |
| RunState.WithStatus | dashboard/dashboard.js:214-238 | only an existing station changes. "processing" and the reset state clear both previews; "done" and "error" change only the status |
| RunState.WithData | dashboard/dashboard.js:287-296 | only an existing station changes, with both previews rendered with the type, "text" by default |
| RunState.IndexOf | dashboard/dashboard.js:523 | the first position of the name, or -1 exactly when it is absent |
| RunState.ClearStation | dashboard/dashboard.js:358-361 | resetting one station makes it idle with empty previews |
| RunState.ResetInStep | dashboard/dashboard.js:358-361 | resetting one more station of the order |
| RunState.ResetIdles | dashboard/dashboard.js:357-365 | after a reset every station is idle, the train is hidden and the trace and result are hidden |
| RunState.AcceptedMarks | dashboard/dashboard.js:495-501 | after a successful POST the gateway is done with "Sent" as output, `STATION_ORDER[1]` (or "validator") is processing, and the train is at 1 |
| RunState.StepWithBadServiceThrows | dashboard/dashboard.js:520 | a truthy non-string `service` makes `toLowerCase` throw |
| RunState.StepAdvances | dashboard/dashboard.js:519-530 | a `step` marks the lowercased service done with its previews. It marks the next station processing and moves the train there, or to n after the last station |
| RunState.StepForUnknownService | dashboard/dashboard.js:519-530 | a `step` for a service not on the board marks station 0 processing and moves the train to 0 |
| RunState.ErrorKeepsTrain | dashboard/dashboard.js:531-536 | an `error` marks only its station as failed, with the error as output, shows "service: error", and leaves the train where it is |
| RunState.DoneFinishes | dashboard/dashboard.js:537-548 | `done` moves the train to n, marks the last station done even after an error, and shows the result iff it has a payload or steps |
| RunState.HandleAllAppend | dashboard/dashboard.js:512-550 | the loop over events stops at the first callback that throws and otherwise carries on with the next batch |
| RunState.FlushShowsResult | dashboard/dashboard.js:552-559 | the final flush shows the result iff it was shown or a flushed `done` has data, and touches nothing else |
| Dashboard.BuiltWellFormed | dashboard/dashboard.js:570-596 | rebuilt stations are all idle, one per name of the order |
| Dashboard.Named | dashboard/dashboard.js:96 | only rows with a raw name are kept |
| Dashboard.NamedEmpty | dashboard/dashboard.js:96 | no row is kept iff no row has a name |
| Dashboard.NamedFrom | dashboard/dashboard.js:93-105 | every kept row is a row of the editor |
| Dashboard.NamedKeeps | dashboard/dashboard.js:93-105 | every named row is kept |
| Dashboard.SaveNeedsAService | dashboard/dashboard.js:139-143 | save refuses with "Add at least one microservice…" iff no row has a name |
| Dashboard.SaveRefusesBlank | dashboard/dashboard.js:144-149 | a named row whose trimmed name or URL is blank makes save refuse with "Every service must have a name and URL." |
| Dashboard.BlankStaysBlank | dashboard/dashboard.js:144-145 | trimming a blank name again leaves it blank |
| Dashboard.SaveSendsComplete | dashboard/dashboard.js:139-165 | what save sends is non-empty, with trimmed non-empty names and URLs and non-blank icons |
| Dashboard.SaveLinesExclusive | dashboard/dashboard.js:136-182 | save shows exactly one of its error and success lines, the success line exactly when the save went through |
| Dashboard.SpliceStart | dashboard/dashboard.js:119 | `splice`'s start position lies within the list |
| Dashboard.DashboardPage.constructor | dashboard/dashboard.js:5-7 | the page starts with the gateway only, no stations, the train hidden and an empty editor |
| Dashboard.DashboardPage.SetStationState | dashboard/dashboard.js:214-238 | the board changes as `WithStatus` |
| Dashboard.DashboardPage.SetStationData | dashboard/dashboard.js:287-296 | the board changes as `WithData` |
| Dashboard.DashboardPage.MoveTrain | dashboard/dashboard.js:337-338 | only the train index changes |
| Dashboard.DashboardPage.ShowTraceLine | dashboard/dashboard.js:514-518 | the trace line is shown for a truthy trace id |
| Dashboard.DashboardPage.ResetStations | dashboard/dashboard.js:357-365 | the loop resets every station of the order, hides the train, trace and result |
| Dashboard.DashboardPage.HandleOne | dashboard/dashboard.js:512-550 | one callback changes the board as the state machine does, or reports that it threw and changes nothing |
| Dashboard.DashboardPage.HandleStep | dashboard/dashboard.js:519-530 | a `step` callback follows `OnStep` |
| Dashboard.DashboardPage.HandleError | dashboard/dashboard.js:531-536 | an `error` callback follows `OnError` |
| Dashboard.DashboardPage.HandleDone | dashboard/dashboard.js:537-549 | a `done` callback follows `OnDone` |
| Dashboard.DashboardPage.HandleEvents | dashboard/dashboard.js:512-550 | the `forEach` gives the state machine's board over the events, stopping where a callback throws |
| Dashboard.DashboardPage.FlushResults | dashboard/dashboard.js:554-559 | the flushed `done` events show the result once |
| Dashboard.DashboardPage.Accept | dashboard/dashboard.js:495-501 | the steps after a 2xx reply, as `Accepted` |
| Dashboard.DashboardPage.ReadStream | dashboard/dashboard.js:503-560 | the chunk loop gives the board of the whole stream, independent of chunking; a callback that throws ends it with "Request failed" or its message |
| Dashboard.DashboardPage.Submit | dashboard/dashboard.js:455-568 | a submission gives the board of the submission specification: file errors, a rejected fetch, a non-2xx reply, or the stream; the board stays well formed |
| Dashboard.DashboardPage.BuildStations | dashboard/dashboard.js:570-596 | the order is rebuilt with every station idle |
| Dashboard.DashboardPage.LoadServices | dashboard/dashboard.js:750-771 | the listed services, or the four defaults when none were listed, and stations built from them |
| Dashboard.DashboardPage.AddRow | dashboard/dashboard.js:123-133 | one new blank row is appended |
| Dashboard.DashboardPage.MoveRow | dashboard/dashboard.js:109-116 | the row swaps with its neighbour when that is inside the list, otherwise nothing changes; the rows are a permutation |
| Dashboard.DashboardPage.RemoveRow | dashboard/dashboard.js:118-121 | `splice(index, 1)` removes the row at the clamped position, and only that one |
| Dashboard.DashboardPage.SavePipeline | dashboard/dashboard.js:135-183 | the error and success lines are save's; the list and stations change only when the save went through |
| Dashboard.ThrownStaysThrown | dashboard/dashboard.js:506-551 | once a callback has thrown, later chunks change nothing |
| Dashboard.ConcatAppend | dashboard/dashboard.js:509 | the received text grows by each chunk |
| Dashboard.HandleEventKeeps | dashboard/dashboard.js:512-550 | an event keeps the order and the set of stations |
| Dashboard.HandleAllKeeps | dashboard/dashboard.js:512-550 | a run of events keeps the order and the set of stations |
| Dashboard.AcceptedKeeps | dashboard/dashboard.js:495-501 | accepting keeps the order and the set of stations |
| Dashboard.StreamKeeps | dashboard/dashboard.js:503-563 | the stream keeps the order and the set of stations |
| Dashboard.SubmitKeepsStations | dashboard/dashboard.js:455-568 | a submission keeps the order and the set of stations, so the board stays well formed |
| StreamHandler.EventDataFields | gateway/handlers.go:206-257 | `step` and `error` name their service; `done` carries the payload, its data as `result`, and the steps; a `step` shows the last step's input, or the preview when it has none |
| StreamHandler.Walk | gateway/handlers.go:210-250 | the hops stop at most at the end of the pipeline |
| StreamHandler.ContinueEnds | gateway/handlers.go:210-257 | after the successful hops comes `done` when all succeeded, otherwise one `error` naming the first failed service |
| StreamHandler.ContinueSteps | gateway/handlers.go:210-250 | every event before the last is a `step` naming its service in pipeline order |
| StreamHandler.StreamShape | gateway/handlers.go:206-257 | `started` comes first, then one `step` per service in order; the stream ends with `done` iff every service answered, otherwise with `error` |
| StreamHandler.RunAgreesWithStream | gateway/handlers.go:462-492 | where every reply decodes, `runPipeline` ends with the payload and steps at which the stream's hops stop, and `stored` holds exactly when the hops reached the end of the pipeline |
| StreamHandler.StoredClaimedAfterFailure | gateway/handlers.go:271-279 | as written, whenever a service fails, so that the stream ends with `error` and `runPipeline` reports `stored: false`, the reply still says `stored: true` |
| StreamHandler.ProcessJsonStored | gateway/handlers.go:271-279 | with `stored` taken from `runPipeline`, the reply is stored exactly when every service answered |
| StreamHandler.ProcessStream | gateway/handlers.go:182-258 | a body that does not decode gives 400 with its error, otherwise the reply is the event stream of the normalised payload over the loaded pipeline |
| StreamHandler.SendEvents | gateway/handlers.go:206-257 | the loop sends exactly the stream specification's events |
| StreamHandler.CallService | gateway/handlers.go:212-241 | one hop is the call, the status check and the decode of the reply |
| StreamHandler.ContinueAfterStep | gateway/handlers.go:210-250 | a successful hop sends its step and goes on from the next service |
| StreamHandler.RunPipeline | gateway/handlers.go:462-492 | the loop computes `runPipeline`'s result over the loaded pipeline |
| StreamHandler.ProcessJson | gateway/handlers.go:260-280 | a body that does not decode gives 400; otherwise the reply carries `runPipeline`'s result, payload and steps over the loaded pipeline, and says `stored: true` whatever `runPipeline` reported (see Findings) |
| SseWire.Blocks | gateway/handlers.go:520-523 | one block per event |
| SseWire.Sent | frontend/src/api.ts:64 | one client event per gateway event |
| SseWire.LineFreeNoNewline | gateway/handlers.go:521 | marshalled JSON free of line breaks has no newline |
| SseWire.EventNameShape | gateway/handlers.go:206-252 | the event names are one line, with no surrounding space |
| SseWire.BlockLines | gateway/handlers.go:522 | a frame's block is exactly the `event:` line and the `data:` line |
| SseWire.TrimAfterSpace | frontend/src/api.ts:55 | trimming drops the space written after the colon |
| SseWire.LinePrefixes | gateway/handlers.go:522 | the written lines start with "event:" and "data:" |
| SseWire.EventLine | frontend/src/api.ts:55 | the written `event:` line gives the event name back |
| SseWire.DataLine | frontend/src/api.ts:56-58 | the written `data:` line gives the JSON value back |
| SseWire.ScanTwo | frontend/src/api.ts:54-63 | reading a two-line block reads both lines in order |
| SseWire.BlockDecodes | frontend/src/api.ts:51-64 | a written block decodes to exactly its event |
| SseWire.BlockHasNoBlankLine | gateway/handlers.go:522 | a frame holds no `"\n\n"` before its end |
| SseWire.FrameSplits | gateway/handlers.go:522 | the client cuts a stream of frames exactly after each frame |
| SseWire.WriteAllSplits | gateway/handlers.go:199-204 | the written stream splits into the frames' blocks followed by an empty remainder |
| SseWire.BlocksDecode | frontend/src/api.ts:51-65 | the blocks decode to the events sent, in order |
| SseWire.WireRoundTrip | gateway/handlers.go:520-523 | everything `writeSSE` writes decodes in the client to exactly the events sent, in order, each frame to one event |
| SseWire.DecodeParts | frontend/src/api.ts:45-81 | a stream ending in a separator decodes as its blocks, with nothing to flush |
| SseWire.ClientSeesStream | gateway/handlers.go:206-257 | the client sees `started` with the trace id and payload first, then only `step` events, and finally `done` or `error` |
| SseWire.SentShape | frontend/src/api.ts:64 | a started-steps-end sequence keeps its shape on the client |
| SseWire.SentNames | frontend/src/api.ts:64 | each client event has the gateway event's name and data |
| Services.GetDataCases | microservices/validator/main.py:25-28 | with a non-empty payload the data is `str(payload.get("data", payload.get("text", text)))` stripped and the type is `payload.get("type", "text")`; otherwise it is the stripped text and "text" |
| Services.OutPayloadExtends | microservices/validator/main.py:55-56 | the output payload keeps the other keys and sets type, data and metadata |
| Services.StepNamesService | microservices/validator/main.py:51 | a step names its service |
| Services.ReadOwnPayload | microservices/transformer/main.py:24-27 | a service reading a payload it wrote gets its data back, stripped, with its type |
| Services.ValidatedOutcome | microservices/validator/main.py:37-57 | empty data gives 400 "Input must be non-empty", text over 10000 characters gives 400 "Text length must be <= 10000", and otherwise the data is kept and one "validator" step is appended, showing the first 500 characters for text and "[type]" otherwise |
| Services.ValidateAcceptsOwnOutput | microservices/validator/main.py:37-57 | validating the validator's own output again succeeds and keeps type, data and metadata |
| Services.TransformReplyOutcome | microservices/transformer/main.py:35-49 | the transformer always answers; its one step has the original data as input and the result as output; the payload keeps type and metadata, and `text` equals its data |
| Services.TransformedShape | microservices/transformer/main.py:42 | text becomes upper case with no lower-case letter and nothing to strip; other types pass unchanged |
| Services.UpperCharIdempotent | microservices/transformer/main.py:42 | upper-casing a character twice is upper-casing it once |
| Services.UpperInfix | microservices/transformer/main.py:42 | stripped upper-case text has only upper-case-fixed characters |
| Services.UpperSlice | microservices/transformer/main.py:42 | any slice of upper-cased text is upper-case-fixed |
| Services.UpperAt | microservices/transformer/main.py:42 | each character of upper-cased text is upper-case-fixed |
| Services.UpperFixed | microservices/transformer/main.py:42 | upper-casing fixed text changes nothing |
| Services.TransformedIdempotent | microservices/transformer/main.py:42 | transforming twice is transforming once |
| Services.TransformIdempotent | microservices/transformer/main.py:35-49 | running the transformer on its own output keeps the payload's type, data and metadata |
| Services.OwnPayloadAgain | microservices/transformer/main.py:47-48 | rewriting a payload with its own type, data and metadata keeps them |
| Services.EnrichStepNamesService | microservices/enricher/main.py:50 | the enricher's step names it |
| Services.EnrichedOutcome | microservices/enricher/main.py:37-58 | a `metadata` value that is not a map makes the merge fail with 500. Otherwise data passes unchanged; the metadata is the old one merged with `{timestamp, id}`, new keys winning; one step carries that meta and a preview of the first 200 characters for text, "[type]" otherwise |
| Services.PersistedOutcome | microservices/persister/main.py:36-56 | the reply has `result` equal to the data and `stored: true`; the payload keeps type and metadata; one step has input and output equal to the data |
| Services.GatewayBodyRead | gateway/handlers.go:450-460 | a service reads the gateway's body as its payload and steps, and takes a string `data` from the payload |
| Strings.TrimLeftWith | gateway/config.go:191 | trimming the left keeps a suffix |
| Strings.TrimRightWith | gateway/config.go:191 | trimming the right keeps a prefix that does not end in space |
| Strings.TrimWith | gateway/config.go:191 | a trimmed string neither starts nor ends with space |
| Strings.TrimIsInfix | gateway/config.go:191 | a trimmed string is a slice of the input |
| Strings.SliceOfSuffix | gateway/config.go:191 | a slice of a suffix is a slice of the whole |
| Strings.TrimIdempotent | gateway/config.go:191 | trimming twice is trimming once |
| Strings.TrimLeftRemovesSpace | gateway/config.go:191 | only space is removed on the left |
| Strings.TrimRightRemovesSpace | gateway/config.go:191 | only space is removed on the right |
| Strings.TrimEmptyIff | dashboard/dashboard.js:144-145 | a string trims to empty iff it is all space |
| Strings.TrimUnchanged | gateway/config.go:191 | a string with no space at its ends is unchanged |
| Strings.TrimUnchangedJoin | gateway/config.go:196 | joining two such strings leaves nothing to trim |
| Strings.TrimDropsLeading | gateway/config.go:191 | a leading space is trimmed |
| Strings.FindFrom | dashboard/dashboard.js:369 | the first occurrence at or after a position |
| Strings.Find | dashboard/dashboard.js:369 | the first occurrence, or none exactly when the pattern does not occur |
| Strings.FindIsFirst | dashboard/dashboard.js:369 | a first occurrence is what is found |
| Strings.OccursExtend | frontend/src/api.ts:48 | appending text keeps earlier occurrences |
| Strings.FindAppend | frontend/src/api.ts:48 | appending text keeps an existing first occurrence |
| Strings.FindPrefix | dashboard/dashboard.js:375 | a prefix is found at 0 |
| Strings.ReplacePrefix | dashboard/dashboard.js:375 | replacing the first occurrence of a prefix drops it |
| Strings.Split | frontend/src/api.ts:49 | `split` gives at least one piece |
| Strings.SplitSome | frontend/src/api.ts:49 | the first piece ends at the first separator |
| Strings.JoinCons | frontend/src/api.ts:49 | joining with one more piece in front |
| Strings.SplitJoin | frontend/src/api.ts:49 | joining the pieces with the separator gives back the text |
| Strings.BeforeFirstFree | frontend/src/api.ts:49 | text before the first separator holds none |
| Strings.SplitPiecesFree | frontend/src/api.ts:49 | no piece holds the separator |
| Strings.LastPieceFree | frontend/src/api.ts:50 | the last piece holds no separator |
| Strings.SplitAppend | frontend/src/api.ts:48-50 | splitting a longer text re-splits only its last piece with the addition |
| Strings.SplitLeading | gateway/handlers.go:522 | a block followed by the separator is cut off first |
| Strings.SplitAppendChar | frontend/src/api.ts:54 | a trailing line break adds an empty last line |
| Strings.SplitTrailing | frontend/src/api.ts:54 | a line with one break cuts into it and an empty line |
| Strings.ToLower | dashboard/dashboard.js:520 | lower-casing keeps the length |
| Strings.ToLowerIndex | dashboard/dashboard.js:520 | lower-casing works character by character |
| Strings.ToUpper | microservices/transformer/main.py:42 | upper-casing keeps the length |
| Strings.ToUpperIndex | microservices/transformer/main.py:42 | upper-casing works character by character |
| Strings.NatToString | gateway/handlers.go:504 | decimal digits with no leading zero |
| Strings.NatToStringRoundTrip | gateway/handlers.go:504 | the digits read back as the number |
| Wrappers.Prefix | frontend/src/useRunHistory.ts:46 | `slice(0, n)` (and Python's `s[:n]`) keeps the first `min(\|xs\|, n)` elements, in order |

## Left out

- Browser rendering: the services editor markup, `renderResult`, the expand overlay and its pan and zoom, `showInputArea`, and the `FileReader` read in `buildRequestBody`. The model takes what `buildRequestBody` produced as a parameter: a body, no file, or a read error.
- `fetch`, `TextDecoder` and `reader.read`: a response is a given sequence of text chunks or a given error. Previews are values, not HTML.
- The front end's `getPipeline` and `putPipeline`: these are thin `fetch` wrappers.
- The front end's `processStream` before its loop (lines 32-42): the status check and the missing-body error. The model starts at the reader.
- gateway/main.go, routing, static files, `health`, `healthAll`, `processForm` (multipart reading), `postWithTrace` and `flushTracer`: these are HTTP and tracing plumbing. gateway/tracing.go and shared/tracing.py are not part of this model, nor are the services' span attributes, `flush_traces` and `time.sleep`.
- HTTP headers, flushing and the 120 s client timeout of the gateway's handlers.
- Concurrency: `configMu` and the breaker's mutex. Everything is single-threaded.
- Time: clocks are integers. The statuses of `PostWithRetryAndCircuit`'s attempts (error, status, or a cancelled wait) are a given sequence, and the breaker's clock reading at each report is part of it.
- The trace id, the enricher's timestamp and uuid, and the export timestamp are parameters.
- JSON and YAML: parsing, printing, Python `str()`/`repr` and `json.Marshal` are uninterpreted parameters. The wire round trip assumes an encoder that writes one line with no surrounding space and parses back (`SseWire.WireSafe`), which `json.Marshal` does.
- JSON numbers are integers; floating point is not modelled. The rail's y positions are rationals, and CSS `calc` strings are left out.
- `StreamHandler.ProcessStream`, `StreamHandler.RunPipeline`, `StreamHandler.ProcessJson`: a service call, with its retries and breaker, is one given function of the hop number, URL and body. The retry loop and breaker are proved separately in `HttpClient`, so the stream handler does not carry the breaker's state from call to call.
- `StreamHandler.RunAgreesWithStream`, `StreamHandler.ProcessJsonStored`, `StreamHandler.StoredClaimedAfterFailure`: these assume every reply body decodes. Where one does not, `runPipeline` goes on with an empty map, and `RunFrom` models that case, while `processStream` stops with an error.
- Dashboard.DashboardPage.Submit: station names are taken to be distinct and safe inside the `[data-service="…"]` selector. A name with a quote makes `querySelector` throw in `resetStations` before the handler's `try`, so the real page stops there with the button disabled, while the model goes on to post. With duplicate names the page has several elements of which only the first is ever updated, while the model has one station per name.
- String lengths count Unicode scalar values. JavaScript counts UTF-16 units and Go counts bytes, so limits like "80" differ for non-ASCII text.
- Upper- and lower-casing are ASCII only.
- The four whitespace sets (JavaScript `trim`, Go `TrimSpace`, Python `strip`) are written out, but with no Unicode normalisation.
- Python dictionary order and pydantic's coercion of request fields: a body that is not an object is not modelled.
- `LoadPipeline`'s defensive copies cannot be observed on values, so the model does not state them.
- The file system is a map from path to contents with modification times. `os.MkdirAll` failures fold into the given write failure.

The model follows the code where the code departs from what its comments or the front end's types suggest:

- `getGridPosition` does not reverse odd rows;
- a `step` for an unknown service marks station 0;
- `done` overrides an error on the last station;
- the rail's corner point lies at the next row's centre;
- `apiPipelinePut` accepts an empty URL.

## Findings

| source | as written | input that shows it | evidently intended | confidence | as-written member | corrected member |
|---|---|---|---|---|---|---|
| gateway/handlers.go:271-279 | `processJSON` replies `"stored": true` whatever `runPipeline` returned, although `runPipeline` reports `stored: false` when a call fails or a service answers with a status other than 200 | any pipeline in which a service fails, for example one service that refuses the connection: `runPipeline` returns `stored: false`, while the reply (`StreamHandler.ProcessJson`) says `stored: true` | the reply's `stored` is `runPipeline`'s `stored` | medium; not executed | StreamHandler.StoredClaimedAfterFailure | StreamHandler.ProcessJsonStored |
