# stapply core, modelled in Dafny

stapply helps a job seeker search for jobs, keep a list of saved jobs and a
profile, and apply through a browser agent. This project models the core of
two parts of it and proves properties of those models.

**The relay server (`server/bu.py`).** The server launches one headless
Chrome per agent task on a free debugging port and keeps a registry of the
tasks. It answers readiness and status queries. It picks the tab to watch
and drives a Chrome DevTools Protocol screencast on it, acknowledging every
frame. Each frame is saved to disk and re-published to the viewer as a
server-sent-event stream. The saved frames can be listed and fetched later
for replay. The server also checks job submissions and names the resumes it
downloads. Modules:
- `PortAllocator`: the free-port scan.
- `ChromeSupervisor`: killing stale instances, finding the executable, the launch and its registry updates.
- `TaskStatus`: readiness, the instance endpoints, the screenshot target.
- `TabSelection`: the tab preference rules.
- `Screencast`: the CDP message handler as a class with the frame counter and a disk.
- `StreamPublisher`: the event framing and the stream loop.
- `ReplayStore`: the replay listing and file fetch.
- `JobSubmission`: the apply endpoint's field check and the resume file name.

**The Next.js app.** Modules:
- `JobResults`: the results list's sort, counts, filter and paging.
- `CombineResults`: merging keyword and semantic hits, and the batch loop.
- `BatchValidation` and `JobValidation`: the two `validateJobBatch` implementations.
- `SearchEvents`: the per-search event emitters.
- `SavedJobs` and `ProfileStorage`: the browser-storage libraries, as classes over the stored value.
- `ValidateQuery`: the rule-based query check.
- `SearchJobs` and `MockJobSearch`: the job text parser and the mock search.
- `AddExternalJob`, `ApplicationSheet`, `ProfileForm`: the logic of those components.
- `ApplyRoute`: the apply route.
- `MetadataFormat`: the metadata labels.
- `TypewriterMachine`: the landing page typewriter.
- `SearchAnalytics`: the search analytics route.

`Wrappers`, `Seqs`, `Text`, `Sorting`, `Http` and `JsonValues` are shared
helpers: options and results, sequence utilities, ASCII text functions, an
insertion sort with its proofs, HTTP status codes, and decoded JSON values.

The outside world is passed in as values, so each model is a function of
what it observed. This covers port probes, file existence, DevTools replies,
WebSocket messages, model (LLM) answers, URL and e-mail checks, the clock's
day starts and request outcomes.

Behaviour worth noting:
- The screenshot endpoint falls back to port 9222 for an unknown task. It does not refuse the task (`TaskStatus.ScreenshotPort`).
- A task still starting makes the live stream send an `error` event, "Browser is still starting up...". It is not a status event.
- When the viewer disconnects, `Page.stopScreencast` is not sent. It is sent only after a WebSocket error, because the generator's exit is not an `Exception` (`Screencast.ScreencastSession.StopScreencast`, `StreamPublisher.RunStream`).

## Model

| member | source | states |
|---|---|---|
| PortAllocator.FindAvailablePort | server/bu.py:83-95 | the port returned is the first of start..start+99 that binds, and every earlier one refused; the failure, with its message, happens exactly when none of the hundred binds |
| PortAllocator.FirstFreeAfterBusyPorts | server/bu.py:83-95 | with 9222-9225 taken and 9226 free, the default scan returns 9226 |
| ChromeSupervisor.PidOfLine | server/bu.py:67-73 | a line yields a pid only if it mentions both `remote-debugging-port` and `Google Chrome`, and the pid is its second column read as an integer |
| ChromeSupervisor.KillTargetsExact | server/bu.py:66-77 | a pid is killed exactly when some line of the `ps aux` listing yields it |
| ChromeSupervisor.KillExistingChromeInstances | server/bu.py:59-81 | the loop kills the pids of the listing's lines, in line order |
| ChromeSupervisor.FindChrome | server/bu.py:120-146 | the executable chosen is the first candidate that exists (or is a bare command name) and whose `--version` probe can be spawned; none exactly when no candidate qualifies |
| ChromeSupervisor.AwaitCdp | server/bu.py:170-184 | Chrome is ready exactly when one of the twenty polls answers 200 |
| ChromeSupervisor.ChromeRegistry.StartChrome | server/bu.py:97-197 | each way a launch ends (no free port, no executable, launch raised, CDP never ready, started) with its exact condition, the port used, and the registry afterwards: `starting` left behind on the early errors, deleted when CDP never answers, `running` with its process on success |
| ChromeSupervisor.FailureMessage | server/bu.py:186-190 | only a started launch raises nothing; a launch that raised passes its own text on (see also server/bu.py:95 and server/bu.py:146) |
| TaskStatus.CheckTaskReady | server/bu.py:1163-1216 | ready exactly for a `running` task whose DevTools list is non-empty, with the tab count; otherwise the status names why (`not_started`, the task's own status, `connecting`, `not_accessible`, `no_tabs`) |
| TaskStatus.StartingTaskIsNeverReady | server/bu.py:1176-1185 | a task still `starting` gets the same `starting` answer whatever DevTools would say |
| TaskStatus.GetTaskInstance | server/bu.py:1149-1161 | the entry's port and status without its process for a known task, 404 "Task not found" otherwise |
| TaskStatus.GetTaskInstancesAsWritten | server/bu.py:1139-1147 | the listing fails with 500 exactly when some entry holds a process handle |
| TaskStatus.ListingFailsOnceABrowserRuns | server/bu.py:1139-1147 | the registry left by one successful launch cannot be listed (see also server/bu.py:193-195) |
| TaskStatus.GetTaskInstances | server/bu.py:1139-1147 | the corrected listing: one entry per task, each what `get_task_instance` serves for it, and the task count |
| TaskStatus.ScreenshotPort | server/bu.py:1498-1504 | the task's own port for a known task, 9222 otherwise |
| TaskStatus.ScreenshotTarget | server/bu.py:1497-1585 | the capture goes ahead exactly when the tab list is non-empty, the evaluate request does not raise and the chosen tab has a WebSocket URL, on the port above and that tab; an empty list is 404 with its message; a raising evaluate request is 500 "Failed to connect to Chrome: …"; every error is 404 or 500 (see also server/bu.py:1668-1669) |
| TabSelection.StreamTabIndex | server/bu.py:1323-1340 | the first tab whose lower-cased URL has a job keyword, else the first real page (not `chrome://`, not `about:blank`), else the first tab; nothing only for an empty list |
| TabSelection.ScreenshotTabIndex | server/bu.py:1515-1535 | the same three tiers with the screenshot's keywords and every `about:` page skipped in the second tier |
| TabSelection.ScreenshotPreferredIsStreamPreferred | server/bu.py:1521 | a tab the screenshot prefers is one the stream prefers (see also server/bu.py:1327) |
| TabSelection.RulesDisagreeOnAboutPages | server/bu.py:1525-1531 | on an `about:` page other than `about:blank` followed by a real page, the stream picks the first and the screenshot the second (see also server/bu.py:1331-1337) |
| Screencast.React | server/bu.py:1351-1403 | a reply to `Page.startScreencast` (id 2) carrying an error queues "Screencast start failed: …"; only a `Page.screencastFrame` with data is counted; it is queued as a frame numbered with the new count, saved as `screenshot_<n>.png` when decoding and the write succeed, and acknowledged with id n+1000 exactly when the directory could be made, a session id is present and the send succeeds; a failing send queues its error after the frame; a failing `makedirs` or an unreadable message queues its error text instead |
| Screencast.FirstFrameOfEveryConnection | server/bu.py:1348-1372 | the counter restarts with each connection, so its first frame is number 1 and overwrites `screenshot_1.png` of any earlier stream of the same task |
| Screencast.HandleCountsAndAcks | server/bu.py:1366-1471 | over a connection the counter ends at the number of data frames, and every command sent from the message handler is an acknowledgement whose ids rise strictly and lie above 1000, so they never collide with ids 1, 2 and 999 |
| Screencast.ApplyToDisk | server/bu.py:1370-1378 | a handled frame creates the task's directory; a saved frame replaces any file of the same name; every other task's directory is unchanged |
| Screencast.Disk.constructor | server/bu.py:1370 | the working directory starts with the given contents |
| Screencast.ScreencastSession.constructor | server/bu.py:1347-1349 | a connection starts with frame counter 0, nothing queued and nothing sent |
| Screencast.ScreencastSession.OnOpen | server/bu.py:1408-1437 | sends `Page.enable` (id 1) then `Page.startScreencast` (id 2, png, quality 80, 1920x1080, every frame) and queues the "Live stream started" status with the tab's URL and title |
| Screencast.ScreencastSession.OnMessage | server/bu.py:1351-1403 | the counter, the queue, the commands sent and the working directory change exactly as `React` and `ApplyToDisk` say |
| Screencast.ScreencastSession.OnError | server/bu.py:1405-1406 | a socket error queues an error event with its text and changes nothing else |
| Screencast.ScreencastSession.StopScreencast | server/bu.py:1468-1475 | the clean-up sends `Page.stopScreencast` (id 999) and nothing else |
| StreamPublisher.Chunk | server/bu.py:1456-1463 | each event is framed as `data: ` + its JSON + a blank line |
| StreamPublisher.WireRoundTrip | server/bu.py:1456-1463 | a client splitting the stream on blank lines recovers every payload in order, provided no payload holds a line feed |
| StreamPublisher.ParseChunk | server/bu.py:1456-1463 | a client reads an event whose payload holds no line feed back whole, ahead of whatever follows it on the wire |
| StreamPublisher.StartStream | server/bu.py:1297-1345 | the stream attaches exactly when the task is registered and running, the tab list was fetched, is non-empty, and the chosen tab has a WebSocket URL; an unknown task and a starting task get their own typed error; no tabs and no WebSocket URL get an untyped `{'error': …}` event (see also server/bu.py:1477-1479) |
| StreamPublisher.RelayYieldsUpToFirstError | server/bu.py:1452-1466 | the loop yields one event per arrival (a keepalive for a timeout) up to and including the first event typed 'error', and ends on an error exactly when one arrived |
| StreamPublisher.Encoded | server/bu.py:1456 | one JSON payload per event, in order |
| StreamPublisher.DrainQueue | server/bu.py:1452-1466 | the loop yields exactly the events `Relay` gives, framed on the wire in order, and reports whether an error ended it |
| StreamPublisher.RunStream | server/bu.py:1452-1475 | `Page.stopScreencast` is sent only when an error ended the loop; a client that went away leaves the screencast running |
| StreamPublisher.WireAppend | server/bu.py:1456 | framing one more payload appends its chunk to the wire |
| StreamPublisher.Forward | server/bu.py:1456-1463 | one `yield` adds the event to those sent and keeps the wire equal to the framing of all events sent, in order |
| ReplayStore.Info | server/bu.py:1240-1252 | a frame file's record carries its name and the number read from it |
| ReplayStore.CollectFrameFiles | server/bu.py:1234-1252 | the loop keeps exactly the `screenshot_*.png` entries, in listing order, each with its record |
| ReplayStore.ListScreenshots | server/bu.py:1223-1268 | a missing directory lists nothing; an unreadable one is a 500 with the error text; otherwise the frame files sorted by number, and their count |
| ReplayStore.ScreenshotsAreTheFrameFilesInOrder | server/bu.py:1234-1259 | the listing holds one record per frame file and nothing else, in ascending number order |
| ReplayStore.SavedFrameNumberReadsBack | server/bu.py:1236-1244 | the name a frame is saved under is recognised as a frame file and reads back its own number (see also server/bu.py:1372) |
| ReplayStore.GetScreenshotFile | server/bu.py:1270-1282 | the saved file's bytes are served exactly when it exists, its name ends in `.png` and `send_file` can serve it; a `.png` path holding something it cannot serve (a directory, an unreadable file) is a 500 with the exception's text; every other request is 404 "Screenshot not found" |
| ReplayStore.SavedFrameIsServed | server/bu.py:1270-1282 | every frame the live stream saved is served back with the bytes written (see also server/bu.py:1369-1376) |
| JobSubmission.MissingField | server/bu.py:1683-1686 | none is missing exactly when all four required fields are present; otherwise the first absent one in the order `job_url`, `resume_url`, `instructions`, `profile` |
| JobSubmission.JobOf | server/bu.py:1688-1693 | the agent gets the body's fields, with `headless` defaulting to false and `max_steps` to 100 |
| JobSubmission.ApplyAnswer | server/bu.py:1677-1773 | no JSON body is a 500; a missing field is a 400 naming it; a missing or empty `STEEL_API_KEY` is a 400; a client construction failure is a 500; the application starts exactly when none of these happens, answering the task id and its live-stream, screencast and replay URLs |
| JobSubmission.MissingFieldIsRefusedFirst | server/bu.py:1683-1700 | a body lacking a field is refused with 400 whatever the environment and the task id |
| JobSubmission.ApplyDesk.constructor | server/bu.py:1717 | the session table starts empty |
| JobSubmission.ApplyDesk.ApplyJob | server/bu.py:1713-1721 | a `starting` entry with the local DevTools URL is recorded under the new task id exactly when the application is started; otherwise the table is unchanged |
| JobSubmission.ResumeExtension | server/bu.py:979-987 | the extension is `.doc` or `.docx` exactly when the lower-cased URL ends so, and `.pdf` otherwise |
| JobSubmission.ResumeFileName | server/bu.py:977-990 | the file name is the fresh id followed by that extension |
| JobResults.Priority | src/components/search/job-results-list.tsx:36-40 | valid, partial and pending rank 0, 1 and 2; every other status, `invalid` or unknown, ranks 3 |
| JobResults.SortedResultsOrder | src/components/search/job-results-list.tsx:36-47 | the sorted list is a rearrangement of the results, ordered by status rank and, within a rank, by falling relevance (a missing score counting 0) |
| JobResults.CountStatuses | src/components/search/job-results-list.tsx:49-57 | each of the four counters is the number of results carrying that status |
| JobResults.CountsCoverAllResults | src/components/search/job-results-list.tsx:49-57 | the four counts plus the results of any other status add up to the number of results |
| JobResults.CountOfIsTheStatusFilter | src/components/search/job-results-list.tsx:49-63 | a status's count is the length of the list its filter shows |
| JobResults.FilterResults | src/components/search/job-results-list.tsx:60-63 | "all" shows the sorted list; a status shows exactly the sorted results of that status, in order |
| JobResults.TotalPages | src/components/search/job-results-list.tsx:65 | the page count is the least number of ten-result pages holding the list |
| JobResults.PageOf | src/components/search/job-results-list.tsx:66-68 | a page holds at most ten results, the ones at its offsets in the list, and a page within the page count is never empty |
| JobResults.PagesPartition | src/components/search/job-results-list.tsx:65-68 | reading the pages in turn gives every result once, in order |
| JobResults.GetPageNumbers | src/components/search/job-results-list.tsx:107-129 | the loop lists every page of the window the clamping computes, in order |
| JobResults.PageWindowShape | src/components/search/job-results-list.tsx:107-129 | with at most five pages every page is shown; beyond, five consecutive pages within range, the current one among them |
| JobResults.ResultsList.constructor | src/components/search/job-results-list.tsx:29-32 | the list starts on page 1 with no filter |
| JobResults.ResultsList.SetResults | src/components/search/job-results-list.tsx:71-73 | new results send the list back to page 1, keeping the filter |
| JobResults.ResultsList.SetFilter | src/components/search/job-results-list.tsx:131-135 | a filter different from the active one sends the list back to page 1; choosing the active filter again keeps the page (see also src/components/search/job-results-list.tsx:71-73) |
| JobResults.ResultsList.GoToPage | src/components/search/job-results-list.tsx:88-92 | the current page becomes the one asked for, and stays valid when it lies within the page count |
| JobResults.ResultsList.GoToPreviousPage | src/components/search/job-results-list.tsx:94-98 | moves back one page unless on page 1, and the page stays valid |
| JobResults.ResultsList.GoToNextPage | src/components/search/job-results-list.tsx:100-104 | moves on one page unless on the last, and the page stays valid |
| CombineResults.SqlKeys | src/app/actions/search/combine.ts:44-51 | the keyword rows' non-empty ids, each once, in order of first appearance |
| CombineResults.VectorKeys | src/app/actions/search/combine.ts:54-66 | the ids only the semantic search found, each once, in order of first appearance |
| CombineResults.Keys | src/app/actions/search/combine.ts:41-68 | the merged list's ids are exactly the found ids, without repeats |
| CombineResults.AddSqlRows | src/app/actions/search/combine.ts:44-51 | after the keyword loop the map holds one entry per non-empty keyword id, the last row with that id tagged 'sql', in first-insertion order |
| CombineResults.AddVectorRows | src/app/actions/search/combine.ts:54-66 | after the semantic loop the map holds the entries `EntryAsWritten` describes, new ids appended in order |
| CombineResults.CombineJobs | src/app/actions/search/combine.ts:41-68 | `Array.from(jobMap.values())` is the merged list as the code computes it |
| CombineResults.MergedIdsAreTheFoundIds | src/app/actions/search/combine.ts:41-68 | the merged list holds every non-empty id of either search exactly once, the keyword ids first |
| CombineResults.TagsAsWritten | src/app/actions/search/combine.ts:44-66 | as written, 'sql' means found by keyword only, 'vector' means found once by semantic search only, and 'both' means found by both or found twice by semantic search only |
| CombineResults.EntriesKeepTheirRows | src/app/actions/search/combine.ts:46-64 | a keyword job keeps its last keyword row; a semantic-only job keeps its first row, with its similarity as score |
| CombineResults.DuplicateVectorRowTaggedBoth | src/app/actions/search/combine.ts:54-58 | two semantic rows with one id and no keyword row give one job tagged 'both' |
| CombineResults.Combine | src/app/actions/search/combine.ts:41-68 | the merged list with the intended tags, of the same length as the found ids |
| CombineResults.CombineTags | src/app/actions/search/combine.ts:44-66 | in the intended merge every job is tagged by exactly the searches that found it |
| CombineResults.CombineDiffersOnlyInRepeatedVectorTags | src/app/actions/search/combine.ts:54-58 | the intended merge differs from the code only in the tag of a semantic-only id that appears more than once |
| CombineResults.InsertPendingRows | src/app/actions/search/combine.ts:84-93 | one pending row per job of the batch, in batch order, carrying its id and tag |
| CombineResults.ProcessBatches | src/app/actions/search/combine.ts:72-119 | the loop inserts, announces and validates exactly the batches `Batches` describes, ends with its valid count, and reports whether a validation threw |
| CombineResults.NextBatch | src/app/actions/search/combine.ts:79-82 | the batch is the jobs from position `i` on, `batchSize` of them or all that remain when fewer, never empty |
| CombineResults.RunBatchesNext | src/app/actions/search/combine.ts:97-112 | a batch whose validation succeeds leaves the loop on course, continuing after the batch with its valid jobs added |
| CombineResults.RunBatchesAborts | src/app/actions/search/combine.ts:113-117 | a batch whose validation throws is the loop's last, and the count stays what it was before it |
| CombineResults.RunCoversAPrefix | src/app/actions/search/combine.ts:74-119 | from any point of the loop whose batches so far cover the jobs before it, the batches go on covering the jobs from the front, and stop short only at the limit or a throw |
| CombineResults.BatchesCoverAPrefix | src/app/actions/search/combine.ts:74-119 | the batches cover the merged jobs from the front, and jobs are left unvalidated only once 20 are valid or a validation threw |
| CombineResults.RunBatchSizes | src/app/actions/search/combine.ts:73-112 | no batch is empty and none holds more than 20 jobs |
| CombineResults.ValidatedAreTheBatches | src/app/actions/search/combine.ts:79-105 | `validateJobBatch` is called on every batch in order and on nothing else |
| CombineResults.InsertedBeforeValidated | src/app/actions/search/combine.ts:84-105 | every job handed to validation already has its pending row |
| CombineResults.ValidCountIsTheSum | src/app/actions/search/combine.ts:97-117 | the final count adds up the valid jobs of the validated batches; only the last batch can have thrown, and the loop was cut short by a throw exactly when it did |
| CombineResults.FirstBatchIsTwenty | src/app/actions/search/combine.ts:73-82 | the first batch is the first 20 jobs, or all of them when there are fewer |
| BatchValidation.DashedIsUuid | src/app/actions/search/validation.ts:128-130 | every 32 hex digits written in 8-4-4-4-12 groups form an id the UUID pattern accepts, and the digits read back |
| BatchValidation.UuidIsDashed | src/app/actions/search/validation.ts:128-130 | every id the pattern accepts is 32 hex digits, in either case, in 8-4-4-4-12 groups |
| BatchValidation.StatusOf | src/app/actions/search/validation.ts:140-144 | a full match is written 'valid', else a partial match 'partial', else 'invalid' |
| BatchValidation.ApplyVerdicts | src/app/actions/search/validation.ts:122-153 | the loop writes one update per judgement whose trimmed id is a UUID, in order, and counts those that are a full or partial match |
| BatchValidation.ValidCountMatchesUpdates | src/app/actions/search/validation.ts:137-152 | a batch's count is the number of its updates that write 'valid' or 'partial' |
| BatchValidation.VerdictUpdatesAreTheWellFormedVerdicts | src/app/actions/search/validation.ts:123-148 | every update comes from a judgement with a well-formed id and writes its status, score and reason under the trimmed id, and every such judgement gets one |
| BatchValidation.MarkBatchInvalid | src/app/actions/search/validation.ts:163-186 | a batch whose model call threw writes 'invalid', relevance 1 and "Failed to validate with LLM" for each of its jobs with a well-formed id, in order |
| BatchValidation.FailedBatchMarksInvalid | src/app/actions/search/validation.ts:163-186 | the failure updates are exactly the invalid marks of the batch's well-formed jobs |
| BatchValidation.ValidateOneBatch | src/app/actions/search/validation.ts:79-190 | a batch with an answer writes its judgements' updates and counts their matches; a failed batch writes the failure updates and counts 0 |
| BatchValidation.NumBatches | src/app/actions/search/validation.ts:75 | the loop builds the least number of five-job batches covering the jobs |
| BatchValidation.BatchesCoverTheJobs | src/app/actions/search/validation.ts:75-76 | the batches are consecutive slices of the jobs, each non-empty and of five jobs except possibly the last |
| BatchValidation.AllBatchesCoverTheJobs | src/app/actions/search/validation.ts:75-76 | all batches together are the jobs, in order |
| BatchValidation.ReportedValidIsWrittenValid | src/app/actions/search/validation.ts:196-197 | the reported number of valid jobs equals the number of updates that write 'valid' or 'partial'; a failed batch adds neither |
| BatchValidation.CountOfBatchesIsWrittenValid | src/app/actions/search/validation.ts:196-197 | over any list of batches, the sum of their counts is the number of their updates that write 'valid' or 'partial' |
| BatchValidation.RunBatchTask | src/app/actions/search/validation.ts:76-192 | the task of batch k adds that batch's updates and count to those of the batches before it |
| BatchValidation.RunBatchTasks | src/app/actions/search/validation.ts:69-197 | the loop writes the updates of every batch in batch order, sums their counts, and processes every job |
| BatchValidation.ValidateJobBatch | src/app/actions/search/validation.ts:54-203 | an empty search id throws "Missing required fields: searchId and jobs array" before any write; otherwise every batch's updates are written and the answer is the summed valid count with every job processed |
| JobValidation.StatusOf | src/lib/ai/job-validation.ts:119 | a judgement is written 'valid' exactly when the model calls the job valid, 'invalid' otherwise |
| JobValidation.ApplyJudgements | src/lib/ai/job-validation.ts:115-128 | the loop writes one update per judgement, in order, and counts the valid ones |
| JobValidation.JudgementUpdatesAreOnePerJudgement | src/lib/ai/job-validation.ts:115-123 | each judgement has its update at its own position, with its id, status, score and reason |
| JobValidation.ValidJudgementsAreValidUpdates | src/lib/ai/job-validation.ts:115-128 | a batch's count is the number of 'valid' statuses it writes |
| JobValidation.MarkBatchInvalid | src/lib/ai/job-validation.ts:129-146 | a batch whose model call threw writes 'invalid', relevance 1 and "Failed to validate with LLM" for each of its jobs, in order |
| JobValidation.FailedBatchMarksEveryJobInvalid | src/lib/ai/job-validation.ts:136-145 | a failed batch marks every one of its jobs invalid, in order, and writes no 'valid' status |
| JobValidation.BatchValidIsWrittenValid | src/lib/ai/job-validation.ts:114-146 | whatever the model answered, a batch's count is the number of 'valid' statuses it writes |
| JobValidation.BatchesRunFromIsTheFirstStop | src/lib/ai/job-validation.ts:62-66 | the batch count searched for is the first batch before which the loop stops |
| JobValidation.LoopStopsAtTheFirstExcess | src/lib/ai/job-validation.ts:62-66 | every batch run starts inside the list with the valid jobs so far at most the limit (reaching it exactly does not stop the loop), and after the last one the jobs are used up or the limit exceeded |
| JobValidation.ReportedValidIsWrittenValid | src/lib/ai/job-validation.ts:115-155 | the reported number of valid jobs is the number of 'valid' statuses written |
| JobValidation.CountOfBatchesIsWrittenValid | src/lib/ai/job-validation.ts:115-155 | over any list of batches, the sum of their counts is the number of 'valid' statuses they write |
| JobValidation.RunBatch | src/lib/ai/job-validation.ts:63-146 | batch k's task adds its updates and count to those of the batches before it |
| JobValidation.RunBatches | src/lib/ai/job-validation.ts:62-146 | the loop runs exactly the batches before the first stop and ends with their updates, in order, and their valid count |
| JobValidation.ValidateJobBatch | src/lib/ai/job-validation.ts:37-157 | an empty search id and an unknown search throw before any write; otherwise the batches up to the first stop are run, their updates written in order, and the answer is their valid count with every job reported processed |
| SearchEvents.Emitter.constructor | src/lib/search-events.ts:58-59 | a new emitter has no listeners and has emitted nothing |
| SearchEvents.Emitter.Emit | src/lib/search-events.ts:135 | emitting appends the payload and leaves the listeners as they were |
| SearchEvents.GetSearchPayload | src/lib/search-events.ts:74-121 | no payload exactly when the search row is missing; otherwise the row and a response mirroring its metadata, status and validity with every result row and their count |
| SearchEvents.SearchEventsGlobal.constructor | src/lib/search-events.ts:44-46 | before first use there is no store |
| SearchEvents.SearchEventsGlobal.Store | src/lib/search-events.ts:48-53 | a store not yet created reads as empty |
| SearchEvents.SearchEventsGlobal.GetEmitterStore | src/lib/search-events.ts:48-53 | the store is created once, empty, and then reused unchanged |
| SearchEvents.SearchEventsGlobal.GetSearchEmitter | src/lib/search-events.ts:55-64 | a known search gets its stored emitter and the store is unchanged; an unknown one gets a fresh emitter without listeners, stored under its id; no other entry changes |
| SearchEvents.SearchEventsGlobal.ReleaseSearchEmitter | src/lib/search-events.ts:66-72 | the entry is removed exactly when it exists and nobody listens for updates; otherwise the store is unchanged |
| SearchEvents.SearchEventsGlobal.EmitSearchUpdate | src/lib/search-events.ts:123-137 | nothing is emitted, and null returned, unless the search's emitter has a listener and the search row exists; then the response is emitted on that emitter alone and returned; the store never gains an entry |
| SavedJobs.GenerateJobId | src/lib/saved-jobs.ts:23-26 | the id has at most 16 characters, all ASCII letters or digits, and exactly 16 when the encoding keeps at least that many |
| SavedJobs.WithoutId | src/lib/saved-jobs.ts:76 | no entry with the id remains |
| SavedJobs.ApplyPatch | src/lib/saved-jobs.ts:100-111 | the spread changes at most the status, the notes and the applied date, and keeps each one the patch does not pass |
| SavedJobs.WithoutIdKeepsLengthIffAbsent | src/lib/saved-jobs.ts:76-80 | the filtered list has the old length exactly when no entry had the id, and is then the old list |
| SavedJobs.SaveThenUnsaveRestores | src/lib/saved-jobs.ts:54-83 | saving a new job and then unsaving its id gives back the list as it was |
| SavedJobs.SavedJobsStore.constructor | src/lib/saved-jobs.ts:20-38 | the store starts with the list found under the key |
| SavedJobs.SavedJobsStore.GetSavedJobs | src/lib/saved-jobs.ts:29-38 | the stored list, or nothing outside a browser |
| SavedJobs.SavedJobsStore.SaveJob | src/lib/saved-jobs.ts:42-68 | succeeds exactly in a browser when no entry has the job's generated id, and then appends one entry with that id, status 'saved', the current time and the job's own fields (its notes and application time included); otherwise the list is unchanged; afterwards, in a browser, the job is saved |
| SavedJobs.SavedJobsStore.UnsaveJob | src/lib/saved-jobs.ts:71-88 | succeeds exactly in a browser when some entry has the id, and then removes every such entry; otherwise the list is unchanged; afterwards no entry has the id |
| SavedJobs.SavedJobsStore.UpdateSavedJob | src/lib/saved-jobs.ts:100-118 | succeeds exactly in a browser when some entry has the id, and then patches only the first such entry; otherwise the list is unchanged |
| SavedJobs.SavedJobsStore.GetSavedJobsByStatus | src/lib/saved-jobs.ts:121-123 | every entry returned has the status and is stored, every stored entry with the status is returned, as many entries as are stored with it, and the result is the status filter of the list (whose order and copies `WithStatusSnoc` fixes) |
| SavedJobs.WithStatusSnoc | src/lib/saved-jobs.ts:121-123 | the filter of no entries is empty, and one more stored entry is added at the end exactly when it has the status: the entries keep their order and repeats |
| SavedJobs.WithStatusConcat | src/lib/saved-jobs.ts:121-123 | filtering two lists joined gives the two filtered lists joined |
| SavedJobs.SavedJobsStore.GetSavedJobById | src/lib/saved-jobs.ts:126-129 | the first stored entry with the id (no earlier entry has it), and null exactly when there is none |
| SavedJobs.SavedJobsStore.IsJobSaved | src/lib/saved-jobs.ts:91-97 | true exactly when the lookup by the job's generated id finds an entry, and never outside a browser |
| SavedJobs.SavedJobsStore.ClearAllSavedJobs | src/lib/saved-jobs.ts:132-135 | in a browser the list becomes empty; elsewhere nothing changes |
| ProfileStorage.Stamped | src/lib/profile-storage.ts:93-100 | the written profile is the given one, updated now, keeping a set and non-empty creation time and otherwise created now |
| ProfileStorage.DataPart | src/lib/profile-storage.ts:140-141 | a data part exists exactly when the URL holds a comma, and it holds no comma itself (the text between the first and second commas) |
| ProfileStorage.SplitCountsSeparators | src/lib/profile-storage.ts:140 | a string splits into two or more parts exactly when it holds the separator |
| ProfileStorage.DecodedBytes | src/lib/profile-storage.ts:142-147 | the loop fills a fresh array, one byte per decoded character, each the character's code modulo 256 |
| ProfileStorage.DataUrlToBytes | src/lib/profile-storage.ts:139-150 | no file exactly when `atob` throws on the data part; otherwise the bytes of the decoded text |
| ProfileStorage.ProfileStore.constructor | src/lib/profile-storage.ts:73-86 | the store starts with the profile found under the key |
| ProfileStorage.ProfileStore.GetUserProfile | src/lib/profile-storage.ts:76-86 | the stored profile, or none outside a browser |
| ProfileStorage.ProfileStore.SaveUserProfile | src/lib/profile-storage.ts:89-108 | outside a browser nothing is written and false returned; otherwise the profile is written with its times stamped |
| ProfileStorage.ProfileStore.SaveResumeToProfile | src/lib/profile-storage.ts:153-202 | a file of another type, then one over 5 MiB, is refused with its message and nothing written; otherwise the resume goes into the stored profile, or a minimal empty one, which is saved |
| ProfileStorage.ProfileStore.GetResumeMetadata | src/lib/profile-storage.ts:228-243 | none exactly when there is no profile or no resume; otherwise the resume's name, size, type and time |
| ProfileStorage.ProfileStore.GetResumeDataUrl | src/lib/profile-storage.ts:222-225 | none exactly when there is no profile, no resume or an empty data URL; otherwise the stored resume's data URL |
| ProfileStorage.ProfileStore.HasCompleteProfile | src/lib/profile-storage.ts:111-120 | true exactly when a profile is stored (in a browser) whose first name, last name and email each have a non-white-space character |
| ProfileStorage.ProfileStore.RemoveResumeFromProfile | src/lib/profile-storage.ts:246-254 | false exactly when no profile is stored; otherwise the profile is saved again without its resume, so no resume metadata remains |
| ProfileStorage.SavedResumeReadsBack | src/lib/profile-storage.ts:175-197 | the saved profile carries the file's resume record, and every other field of an existing profile, times aside, is unchanged; without one the fields are empty |
| ValidateQuery.Fallback | src/app/actions/search/validate-query.ts:48-96 | on the trimmed, lower-cased query: under 3 characters is too short, over 200 too long, and in between valid with the job-related reason and confidence 0.6 exactly when a job keyword occurs in it, and otherwise invalid with the not-job-related reason and confidence 0.8; the length refusals carry no confidence |
| ValidateQuery.ValidateQuery | src/app/actions/search/validate-query.ts:10-97 | the model's reply is used exactly when it has a boolean `isValid` and a string `reason`; otherwise the rule-based fallback decides |
| ValidateQuery.KeywordInsideAWordCounts | src/app/actions/search/validate-query.ts:79-81 | keywords match inside words: "  Three " passes because it contains "hr" |
| ValidateQuery.FallbackIgnoresCaseAndPadding | src/app/actions/search/validate-query.ts:52 | white space around the query and letter case never change the fallback's verdict |
| ValidateQuery.TrimOfLowerTrimmed | src/app/actions/search/validate-query.ts:52 | lower-casing a trimmed query leaves nothing to trim |
| SearchJobs.Set | src/app/actions/search/search-jobs.ts:51-62 | a field line sets exactly its own field of the current record and leaves the title and every other field as they were |
| SearchJobs.ParseJobResults | src/app/actions/search/search-jobs.ts:33-78 | the loop over the lines yields the records closed by the line-by-line parse (each title line closes the record before it, the end closes the last), keeping those with a title, a company and a link |
| SearchJobs.ResultsAreComplete | src/app/actions/search/search-jobs.ts:66-72 | every record returned has a non-empty title, company and link and is one the parse closed |
| SearchJobs.OneRecordPerTitledLine | src/app/actions/search/search-jobs.ts:46-69 | every record pushed has a title, and the records closed are exactly as many as the title lines with a non-empty title |
| SearchJobs.StepSetsField | src/app/actions/search/search-jobs.ts:51-62 | a line for a field makes that field of the current record the trimmed text after its label |
| SearchJobs.StepKeepsField | src/app/actions/search/search-jobs.ts:43-64 | a line with no label for a field leaves that field of the current record alone |
| SearchJobs.ParseSnoc | src/app/actions/search/search-jobs.ts:43-64 | parsing one more line is one more pass of the loop body |
| SearchJobs.LastFieldLineWins | src/app/actions/search/search-jobs.ts:51-63 | after a field line, the field keeps that line's value as long as no later line names the field or opens a new record: the last line for a field wins |
| MockJobSearch.QueryWords | src/app/actions/search/search-jobs.ts:146 | every query word kept is longer than two characters |
| MockJobSearch.GetMockJobResults | src/app/actions/search/search-jobs.ts:80-164 | at most five sample jobs; with a job keyword among the words, or no words at all, the jobs some query word occurs in (every job when there are no words), in sample order as all relevant jobs of some prefix of the samples, and every relevant job when fewer than five come back; otherwise exactly the first three samples (see also src/app/actions/search/search-jobs.ts:15-31) |
| MockJobSearch.FirstRelevant | src/app/actions/search/search-jobs.ts:152-158 | at most five jobs of the list, all relevant to the query words, in list order as every relevant job of some prefix of the list; when fewer than five are returned, every relevant job of the list is among them |
| MockJobSearch.NoWordsGivesTheFirstFive | src/app/actions/search/search-jobs.ts:152-159 | a query without long words gets the first five sample jobs |
| AddExternalJob.IndividualRequest | src/components/add-external-job-dialog.tsx:102-124 | a blank link is refused as missing, a non-blank link whose trimmed form is not a URL as invalid, and every other link is sent trimmed, in individual mode |
| AddExternalJob.FailureToast | src/components/add-external-job-dialog.tsx:139-160 | a message naming a timeout, a failed extraction or an already-saved job gets its own title and advice, checked in that order; any other message is the toast's title with no description |
| AddExternalJob.IndividualSubmit | src/components/add-external-job-dialog.tsx:102-164 | a refused link sends nothing and shows the reason; an accepted one sends exactly one request, closes the dialog exactly when it succeeds, and shows one toast, a success or the failure toast of the thrown message ("Failed to add job" when it is not an Error) |
| AddExternalJob.CsvUrlsAreTheUrlCells | src/components/add-external-job-dialog.tsx:166-185 | a value is among the URLs found exactly when it is a URL and is a cell (trimmed, quotes removed) of some line |
| AddExternalJob.CsvUrlsAreCells | src/components/add-external-job-dialog.tsx:173-182 | every URL found is a URL cell of some line |
| AddExternalJob.CellsAreCsvUrls | src/components/add-external-job-dialog.tsx:173-182 | every URL cell of every line is found |
| AddExternalJob.Cell | src/components/add-external-job-dialog.tsx:174-176 | a cell holds no double quote |
| AddExternalJob.ParseCsv | src/components/add-external-job-dialog.tsx:166-185 | the nested loops collect the URL cells row by row, column by column |
| AddExternalJob.AppendRowUrls | src/components/add-external-job-dialog.tsx:177-181 | a row's values that are URLs are appended to those found so far, in column order |
| AddExternalJob.BulkLinks | src/components/add-external-job-dialog.tsx:231-238 | a pasted line is sent exactly when it is a line of the trimmed text, not blank, and a URL once trimmed; it is sent as written |
| AddExternalJob.ProcessJobs | src/components/add-external-job-dialog.tsx:187-215 | one request per link, in order, in individual mode; the successes are the ok replies, the failures the others, and every request counts once |
| AddExternalJob.BulkToasts | src/components/add-external-job-dialog.tsx:248-257 | none added is an error; otherwise a success toast, followed by a warning exactly when some failed |
| AddExternalJob.SendLinks | src/components/add-external-job-dialog.tsx:246-257 | every link is sent once, in order, in individual mode; the toasts report the successes and failures; the dialog closes exactly when at least one was added |
| AddExternalJob.HandleBulkSubmit | src/components/add-external-job-dialog.tsx:217-258 | no text and no file is refused, no URL found is refused, both without a request; otherwise every link (the CSV file's when one is chosen) is sent, the toasts report the counts, and the dialog closes exactly when at least one was added |
| ApplicationSheet.Checks | src/components/application-sheet.tsx:162-184 | with no profile every check fails; otherwise basic information needs a truthy first name, last name and email, a summary must have a non-blank character, skills, experience and education must be non-empty lists, and the contact, location and resume checks are the truthiness of `phone`, `location` and `resumeUploaded` |
| ApplicationSheet.MissingItems | src/components/application-sheet.tsx:186-202 | the critical list names basic information exactly when it is missing and then the resume exactly when it is missing; the recommended list holds exactly the recommended items that are missing, in the sheet's fixed order |
| ApplicationSheet.PushIfMissing | src/components/application-sheet.tsx:195-202 | one conditional push keeps the list equal to the missing items ranked so far, in order |
| ApplicationSheet.InOrderIsUnique | src/components/application-sheet.tsx:195-202 | two lists in the sheet's order with the same items are equal, so the recommended list is fully determined by the checks |
| ApplicationSheet.AllRecommendedIffEveryCheck | src/components/application-sheet.tsx:205 | the recommended list is empty exactly when all six recommended checks pass |
| ApplicationSheet.CompleteIffBasicInfoAndResume | src/components/application-sheet.tsx:588-590 | the profile counts as complete exactly when it has basic information and a resume; when no submission is running the button is disabled exactly when one of them is missing, and always while no profile is loaded (see also src/components/application-sheet.tsx:204) |
| ApplicationSheet.RefusalMessage | src/components/application-sheet.tsx:106-122 | a 409 is "already applied"; a 500 naming the local server, a 400 naming the profile, a 400 naming the resume get their own messages, in that order; every other refusal, whatever its status, shows the server's error when it is non-empty and the default text otherwise |
| ApplicationSheet.ProfileBeforeResume | src/components/application-sheet.tsx:114-118 | a 400 whose error names both the profile and the resume is reported as an incomplete profile |
| ApplicationSheet.HandleApply | src/components/application-sheet.tsx:129-160 | no job id does nothing; a made application navigates to its page (the job's, with the run's URLs, for a local run; the application's otherwise); a failure shows its message |
| ApplyRoute.MissingFields | src/app/api/apply/route.ts:117-122 | a required field (first name, last name, email) is listed exactly when it is empty or white space only; the list is empty exactly when all three have a non-blank character |
| ApplyRoute.StoredCompleteIffNothingMissing | src/lib/profile-storage.ts:111-120 | the browser's completeness test of a stored profile agrees with the route's: complete exactly when the route finds no required field missing in the same name and email |
| ApplyRoute.Apply | src/app/api/apply/route.ts:78-207 | a request the schema refuses is a 400 "Invalid request data"; then no profile is a 400 "Profile required"; then a profile missing a field is a 400 "Incomplete profile" naming the fields; the application is submitted exactly when all those checks pass and the agent's run completes, and a failed run is a 500 "Application failed" |
| ApplyRoute.SubmittedHadCompleteProfile | src/app/api/apply/route.ts:117-133 | a submitted application had a profile with a non-blank name and email; as the schema already demands non-empty names, a name is reported missing only when it is non-empty white space (see also src/app/api/apply/route.ts:9-12) |
| ApplyRoute.BuildSecrets | src/app/api/apply/route.ts:247-268 | each of LinkedIn, Indeed and Glassdoor contributes its domain key (the e-mail) and its sub-domain key (the password) exactly when both are non-empty; no other key ever appears, and the record is empty exactly when none of the three is usable |
| ApplyRoute.TaskSecrets | src/app/api/apply/route.ts:465-470 | the task gets the secrets record itself, or none when it is empty |
| ApplyRoute.ContentType | src/app/api/apply/route.ts:351-353 | a name ending in `.pdf` (any case) is uploaded as PDF, else one ending in `.txt` as plain text, else as a Word document |
| ApplyRoute.ContentTypeIgnoresCase | src/app/api/apply/route.ts:351-353 | the content type does not depend on the letter case of the file name |
| ApplyRoute.ResumeUpload | src/app/api/apply/route.ts:313-391 | an upload is attempted exactly when the profile has a resume with a non-empty name and data URL whose data part exists; it is named as the file, typed by the name, and its payload is the data URL's second comma-separated part |
| ProfileForm.AddSkill | src/components/profile/form.tsx:241-247 | the skill is in the list afterwards; a listed skill leaves the list as it was, a new one is appended at the end |
| ProfileForm.RemoveSkill | src/components/profile/form.tsx:249-255 | the skill no longer appears and every other skill listed stays, with nothing added; the order and repeats of the rest are fixed by `RemoveSkillSnoc` |
| ProfileForm.AddSkillKeepsDistinct | src/components/profile/form.tsx:241-247 | adding never lists a skill twice |
| ProfileForm.RemoveSkillSnoc | src/components/profile/form.tsx:249-255 | removing from no skills gives none, and one more listed skill stays, at the end, exactly when it is not the one removed: the other skills keep their order and repeats |
| ProfileForm.RemoveSkillConcat | src/components/profile/form.tsx:249-255 | removing from two lists joined is removing from each and joining the results |
| ProfileForm.RemoveUndoesAdd | src/components/profile/form.tsx:241-255 | removing a skill just added gives back the list before |
| ProfileForm.Defaulted | src/components/profile/form.tsx:269-271 | the list keeps its length, every truthy entry as it is and every falsy one replaced by an empty object |
| ProfileForm.HandleResumeDataParsed | src/components/profile/form.tsx:257-285 | no data leaves the form alone; otherwise the loop over the entries builds the object the form is reset to |
| ProfileForm.BuildIsWellBuilt | src/components/profile/form.tsx:266-281 | the built object has no null value, never an `experience` key, and an `education` key only as a list with no falsy entry |
| ProfileForm.ListsAreDefaulted | src/components/profile/form.tsx:267-270 | an `experience` list is stored under `experiences`, an `education` list under `education`, each with falsy entries replaced by empty objects, unless a later entry overwrites it |
| ProfileForm.OtherKeysAreCopied | src/components/profile/form.tsx:274-279 | with distinct keys, any key other than experience, education and experiences is copied unchanged when its value is not null and left out when it is |
| ProfileForm.ResumeFields | src/components/profile/form.tsx:287-307 | a failed upload fails the save with "Failed to upload resume"; otherwise `resumeUploaded` is true exactly when a non-empty URL remains, which is the uploaded one after an upload and the form's own otherwise |
| MetadataFormat.DropLeading | src/components/search/search-metadata-section.tsx:28 | one leading character removed exactly when the text starts with it |
| MetadataFormat.Unsnake | src/components/search/search-metadata-section.tsx:31 | the same length; every underscore becomes a space and every other character stays in its place, so no underscore is left |
| MetadataFormat.SplitCamel | src/components/search/search-metadata-section.tsx:34 | the text grows by exactly one character per upper-case letter of the input, and every non-space character comes from the input |
| MetadataFormat.SplitCamelSpacesCapitals | src/components/search/search-metadata-section.tsx:34 | every capital in the result follows a space, and only spaces were added: without white space, input and result are the same text |
| MetadataFormat.CapitaliseWords | src/components/search/search-metadata-section.tsx:37 | the same length; the first character of each word is upper-cased and every other character is left as it is, so only letter case changes and no word starts with a lower-case letter |
| MetadataFormat.FormatFieldName | src/components/search/search-metadata-section.tsx:26-40 | the title has no underscore, every word starts with something other than a lower-case letter, and it neither begins nor ends with white space |
| MetadataFormat.TitleSpellsKey | src/components/search/search-metadata-section.tsx:26-40 | apart from white space and letter case, the title holds exactly the characters of the key other than underscores, in their order, once the `@` and `_` prefixes are dropped |
| MetadataFormat.UnsnakeVisible | src/components/search/search-metadata-section.tsx:31 | after underscores become spaces, the visible characters are the key's characters that are neither white space nor underscores |
| MetadataFormat.FirstNameExample | src/components/search/search-metadata-section.tsx:26-40 | `@_firstName` is shown as `First Name` |
| MetadataFormat.FirstGroup | src/components/search/search-metadata-section.tsx:46-92 | the icon of the first group, in order, whose words the key mentions; the default when it mentions none |
| MetadataFormat.FieldIcon | src/components/search/search-metadata-section.tsx:43-93 | the icon of the first group in the keyword order whose word occurs in the lower-cased key; the lightning icon exactly when no group's word occurs |
| MetadataFormat.NoGroupGivesZap | src/components/search/search-metadata-section.tsx:92 | as no group carries the lightning icon, the first-group search returns it only when nothing matched |
| MetadataFormat.FieldIconIgnoresCase | src/components/search/search-metadata-section.tsx:44 | the icon does not depend on the key's letter case |
| MetadataFormat.CompanyComesFirst | src/components/search/search-metadata-section.tsx:46-48 | a key mentioning `company` gets the company icon whatever later group it also mentions |
| MetadataFormat.CompanySizeIsACompanyField | src/components/search/search-metadata-section.tsx:46-76 | `company_size` gets the company icon, not the team-size one |
| TypewriterMachine.Next | src/components/typewriter.tsx:26-73 | one effect run keeps the invariant (index in range, shown text a prefix of the target, pausing only on the whole target); a pause turns into deleting; the whole target pauses; an empty text while deleting moves to the next text, the first after the last; otherwise one character is typed or deleted |
| TypewriterMachine.Run | src/components/typewriter.tsx:26-73 | any number of runs keeps the invariant |
| TypewriterMachine.RunAdds | src/components/typewriter.tsx:26-73 | running a steps and then b more is running a + b steps |
| TypewriterMachine.TypingCompletes | src/components/typewriter.tsx:48-61 | typing from j characters reaches the whole target after one run per missing character |
| TypewriterMachine.DeletingCompletes | src/components/typewriter.tsx:42-61 | deleting from j characters empties the text after j runs |
| TypewriterMachine.CycleAdvances | src/components/typewriter.tsx:21-73 | from an empty text on a target, twice its length plus three runs type it, pause, delete it and arrive, empty, at the next target |
| TypewriterMachine.Typewriter.constructor | src/components/typewriter.tsx:21-24 | the typewriter starts on the first text, showing nothing, neither deleting nor paused |
| TypewriterMachine.Typewriter.Step | src/components/typewriter.tsx:26-73 | one run of the effect with its timer callback changes the state exactly as `Next` says, keeping the invariant |
| SearchAnalytics.BumpShape | src/app/api/analytics/searches/route.ts:56-88 | adding under a key adds that key to the tally and keeps the keys distinct, every entry counted, and the counts summing to one more |
| SearchAnalytics.BumpValues | src/app/api/analytics/searches/route.ts:56-88 | adding under a key raises that key's count by one and its total by the amount, and no other key's |
| SearchAnalytics.TallyFacts | src/app/api/analytics/searches/route.ts:56-92 | a tally has one entry per distinct key, each with at least one item, counting and summing exactly the items with its key, and the counts add up to the number of items |
| SearchAnalytics.StatusCounts | src/app/api/analytics/searches/route.ts:55-59 | the reduce over the searches builds the tally of their statuses |
| SearchAnalytics.StatusCountIsCount | src/app/api/analytics/searches/route.ts:55-59 | the count under a status is the number of searches with that status |
| SearchAnalytics.StepItemsAreTimed | src/app/api/analytics/searches/route.ts:79 | no step item is an `end` step or one without a duration |
| SearchAnalytics.StepTallyHasNoEnd | src/app/api/analytics/searches/route.ts:79-100 | the step tally has no `end` entry and every entry has a timed run, so each step's average divides by a positive count |
| SearchAnalytics.AddStep | src/app/api/analytics/searches/route.ts:77-89 | one pass of the inner loop adds the step to the tally exactly when it is timed |
| SearchAnalytics.AddSearch | src/app/api/analytics/searches/route.ts:75-91 | one pass of the outer loop adds the search's timed steps, in order; a search without steps adds nothing |
| SearchAnalytics.StepDurations | src/app/api/analytics/searches/route.ts:69-92 | the nested loops build the tally of every timed step of every search |
| SearchAnalytics.EndDurations | src/app/api/analytics/searches/route.ts:38-53 | the average's denominator is at most the number of searches, and with no denominator the numerator is 0, so the average is 0 |
| SearchAnalytics.EndDurationsCountEnds | src/app/api/analytics/searches/route.ts:39-52 | the denominator is the number of searches with an end step |
| SearchAnalytics.LaterStartCountsFewer | src/app/api/analytics/searches/route.ts:26-36 | counting from a later instant admits no more searches |
| SearchAnalytics.WeekIncludesToday | src/app/api/analytics/searches/route.ts:23-36 | when the week starts no later than today, the week's count is at least today's |
| SearchAnalytics.Analytics | src/app/api/analytics/searches/route.ts:8-112 | no user is a 401 "Unauthorized"; otherwise the searches are passed back as read, the total is the number of searches, each status's count is the number of searches with it and the counts add up to the total, the step tally counts and sums exactly the timed steps of each name, has distinct keys, no `end` entry and positive counts, today's and the week's counts are the searches created since each start (today's at most the week's when the week starts first), and the duration average is the sum of the end-step durations over exactly the searches with an end step |
| CombineResults.EntryAsWritten | src/app/actions/search/combine.ts:44-66 | the entry the code builds for a found id carries that id |
| CombineResults.CombineAsWritten | src/app/actions/search/combine.ts:41-68 | as the code computes it, the merged list has one entry per found id |
| CombineResults.Entry | src/app/actions/search/combine.ts:44-66 | the intended entry for a found id carries that id |
| CombineResults.RunCountsValidJobs | src/app/actions/search/combine.ts:97-107 | the valid count the loop ends with is the sum of the valid jobs of the batches it validated |
| CombineResults.RunAbortsOnLastBatch | src/app/actions/search/combine.ts:96-117 | every batch but the last was validated, and the loop was cut short by a throw exactly when the last batch's validation threw |
| JobResults.ComesBeforeIsStrictWeakOrder | src/components/search/job-results-list.tsx:36-47 | the sort's comparison (status rank, then falling relevance) is a strict weak order, so the sorted list is well defined up to ties |
| ReplayStore.ByNumberIsStrictWeakOrder | server/bu.py:1255 | sorting by frame number is a strict weak order |
| BatchValidation.BatchValidIsWrittenValid | src/app/actions/search/validation.ts:137-186 | whether it got an answer or threw, a batch's count is the number of its updates that write 'valid' or 'partial' |

## Left out

- Operating-system processes, sockets and HTTP calls (`ps`, `kill`, process launch, the readiness GETs, the tab-list fetch, the WebSocket client and its threads) are inputs; the outcomes of `ps`/`kill` themselves are not modelled.
- Concurrency: the producer thread and the stream generator share a queue, modelled as a sequence of events in arrival order; the batches of `src/app/actions/search/validation.ts` run under `Promise.all` and are modelled one after another in batch order.
- Page-driving actions (file upload, combobox selection, Playwright attachment), the Flask page routes and templates, the background agent run and `task_results` are not part of this model.
- Base64, JSON encoding and decoding, `time.time`, `new URL`, Zod's URL and e-mail checks, `btoa`/`atob` are abstract inputs or predicates; `btoa` throwing on non-Latin-1 text (which makes `saveJob` return false) is not modelled.
- Letter case and white space are ASCII only; Unicode case mapping is not modelled.
- The emoji prefixes of the server's error and status messages are dropped from the message constants.
- Python integers written with underscores, ports above 65535, and path traversal in file names are not modelled.
- Sort stability: both sorts are proved to be ordered permutations of their input; the order of ties is not stated.
- Floating point: the analytics averages and percentages are kept as the sums and counts (or counts and totals) they divide; similarity and relevance scores are integers.
- SearchAnalytics.Analytics: a database failure (the 500 reply) and a search row without metadata are not modelled; keys that name inherited object properties (`constructor`) are treated as ordinary keys, and `Object.entries` listing integer-like keys first is not modelled (entries are kept in order of first appearance).
- Database failures elsewhere: an update throwing in the middle of a validation batch (which would fall into the batch's catch) is not modelled.
- The validation updates in `src/app/actions/search/validation.ts` and `src/lib/ai/job-validation.ts` select rows by job id only, without the search id, so a job's rows in other searches change too; the model records the update list, not the table.
- Model (LLM) and embedding calls, the SQL and vector searches, the resume parser and the LLM branch of `validateQuery` are inputs; the extra fields of the `validateQuery` reply are not modelled.
- The timing of the combine step (its duration pushed to `steps`) and the typewriter's speeds, timers and changing texts are not modelled.
- TypewriterMachine.Typewriter.constructor: requires at least one text; with none the component reads past the end of the list.
- `localStorage` failures other than absence or an unparsable value, and `clearUserProfile`, `exportProfileData` and `importProfileData` (storage pass-through and JSON parsing) are not modelled; a `Patch` that sets a field to `undefined` explicitly is not modelled.
- The resume file object of `getResumeFromProfile`, the decoded resume's byte size, and the session, presigned-URL and upload calls of the apply route are not modelled beyond whether an upload is attempted.
- The mock jobs' posting dates (computed from the clock), the agent's task text and the profile prompt of the apply route are not modelled.
- `parseCSV`'s check for no lines, which cannot fire, is left out; reading the CSV file failing, and toast descriptions other than those of the single-link path, are not modelled.
- ApplyRoute.Apply: an unexpected error outside the two catches (a body that is not JSON) is not modelled; the request is taken as already decoded.
- ProfileForm.HandleResumeDataParsed: resume data that is a truthy non-object is not modelled; the form reset is the returned object; when both `experience` and `experiences` keys are present the later entry wins.
- SearchEvents: registering listeners on an emitter is not modelled; only the store and the emitted payloads are.
- Non-array `jobs` arguments to `validateJobBatch` are not modelled (the type excludes them).
- Text.IsSpace: only the six common ASCII white-space characters; Python's `str.split`/`str.strip` also treat `\x1c`-`\x1f` as white space (which matters to the `ps` line parser) and JavaScript's `trim` the Unicode spaces.
- TaskStatus.ScreenshotTarget: a chosen tab without an `id` (the KeyError answered as "Unexpected error") is not modelled, as tab ids are strings; the capture over the WebSocket that follows is not modelled.
- The URL check `isUrl` is an arbitrary predicate: the model does not assume that it refuses the empty string, so what is proved holds for any such check.

## Findings

| source | as written | input that shows it | evidently intended | confidence | as-written member | corrected member |
|---|---|---|---|---|---|---|
| server/bu.py:1139-1147 | `get_task_instances` passes the whole registry to `jsonify`, process handles included | any registry after a successful launch, whose entry holds the Chrome process object: the listing raises a TypeError and answers 500 | each task listed with its port and status, as `get_task_instance` serves it | not executed | TaskStatus.GetTaskInstancesAsWritten | TaskStatus.GetTaskInstances |
| src/app/actions/search/combine.ts:54-58 | a semantic row whose id is already in the map tags the entry 'both' | two semantic rows with id "a" and no keyword row: the job is tagged 'both' though only the semantic search found it | 'both' only for an id that both searches found | not executed | CombineResults.DuplicateVectorRowTaggedBoth | CombineResults.Combine |
