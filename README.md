# Development-support web application: generation and check endpoints, in Dafny

This project models the server side of a Next.js application that helps a
software project along its life cycle. Each API endpoint reads project
material from the store and asks an AI model to produce or check something.
It then stores the result and answers the browser. There are eight
endpoints:

- code generation: an asynchronous task that the browser polls;
- document generation;
- consistency check;
- quality check;
- work estimation;
- progress report;
- proposal creation;
- file upload.

The project also models the list and counter logic of three browser pages:

- quality check;
- consistency check;
- work estimation result.

The store, authentication, the AI model, the file system and the form
parser are not modelled. Their answers are inputs that each handler
receives as an `Env` value: a user or none, success flags, AI outputs
(`None` when the call throws), the ids the store generates and the values
`Math.random` draws.

Each store table is either:

- a `map` from id to row, where rows are addressed by id; or
- a `seq` of rows, where the handler filters a table or appends to it.

Every handler except code generation is a pure function. It maps the
tables, the request and the collaborators' answers to:

- the tables after the request;
- the status code and JSON body of the response;
- where it matters, the prompt sent to the AI.

Its `ensures` clauses state the guard order, the fallback policy, when a
row is stored and what the response echoes.

Code generation (`code_generation.dfy`) is a state machine over:

- the `documents`, `code_generations` and `source_codes` tables;
- one background block per task.

The block is a fixed sequence of stages. Each awaited call of the block is
one `Event`, so:

- the blocks of different tasks may interleave with each other;
- requests may interleave with the blocks, in any order.

The invariant `Consistent` holds across every such interleaving. It makes a
row the replay of the updates its block issued, in the fixed order. From it
the model proves:

- progress never decreases;
- completed and failed rows never change again;
- `completed` holds exactly when `source_code_id` is set.

`Engine` is the same store as a class whose methods update it in place.

The work estimation result page (`work_estimation_result.dfy`) keeps the
estimate as objects. This lets the model state the page's aliasing: an
adjustment copies the breakdown array but not its entries. The page
classes of the two check pages hold the selection, the progress counter and
the route.

Shared modules:

- `Http`: methods, status codes, truthiness of body fields, the token taken
  from the `Authorization` header;
- `Query`: row filters in table order;
- `Strings`: search, split, join, decimal rendering, and the first-occurrence
  replace;
- `Selection`: the toggle and the progress tick the pages share.

A failing AI call is not recovered in code generation: the throw at
`src/pages/api/code-generation.ts:62` reaches the catch block (lines 98-104)
and the task ends `failed` at progress 100. The model follows the code
everywhere except the draft replacement listed under "## Findings", where it
uses the evidently intended literal replacement.

Some string literals in the sources hold a raw line break between single
quotes. JavaScript would reject these as syntax errors. The model reads each
one as the newline character it evidently stands for:

- `src/pages/api/consistency-check.ts:64-65`;
- `src/pages/api/work-estimation.ts:55-56`;
- `src/pages/api/progress-report.ts:87-92`;
- `src/pages/api/proposal-creation.ts:67-68`.

## Model

| member | source | states |
|---|---|---|
| CodeGeneration.FileExtension | src/pages/api/code-generation.ts:141-154 | Python, JavaScript, TypeScript and Java map to py, js, ts and java; the extension is `txt` exactly when the language is none of the four |
| CodeGeneration.FileName | src/pages/api/code-generation.ts:75 | the stored file name is `generated_code.` followed by the language's extension |
| CodeGeneration.KnownExtensionsDistinct | src/pages/api/code-generation.ts:141-154 | two languages with the same known extension are the same language |
| CodeGeneration.Submit | src/pages/api/code-generation.ts:8-108 | missing `documentId` or `language` gives 400; an unknown document or failed read gives 404 with the document message; a failed insert gives 500 with the create message; none of these changes the store. 200 exactly when both fields are set, the read works, the document exists and the insert works. On 200 the body carries the new id, and that id names a new row `{progress 0, in_progress}` with the request's document and language, plus a block that has issued nothing yet |
| CodeGeneration.Poll | src/pages/api/code-generation.ts:112-132 | 400 exactly when the id is missing, empty or repeated (a repeated `generationId` query parameter is an array in Next.js, so it is not a string), with the missing-id message; 404 with the not-found message; 200 exactly when the id names a task and the read works, with the stored progress and status |
| CodeGeneration.Handle | src/pages/api/code-generation.ts:7-137 | POST is `Submit` and GET is `Poll` on the unchanged store; only POST changes the store; methods other than POST and GET get 405 |
| CodeGeneration.HandlePreserves | src/pages/api/code-generation.ts:29-40 | a request keeps the invariant and leaves every existing task, its block and the source codes as they were |
| CodeGeneration.RowOfStage | src/pages/api/code-generation.ts:47-105 | a consistent row is the created row before the progress-50 update, at progress 0 or 50 until the final update, and then the final update applied |
| CodeGeneration.TaskFacts | src/pages/api/code-generation.ts:89-96 | completed exactly when `source_code_id` is set, and that id names the source code the task's own block inserted: a row of the document's project, named after the task's language; progress is 0, 50 or 100; a terminal row is at 100 with its block finished |
| CodeGeneration.StepEffect | src/pages/api/code-generation.ts:47-105 | each awaited call of the background block (`Step`) moves it to its next stage and issues at most one update, appended to the log; the task row changes only through an update the store applied; the block takes the failure path exactly when the AI call throws or the insert fails; the only source code written is the AI's code, under the task's project and `generated_code.<ext>` |
| CodeGeneration.StepFrame | src/pages/api/code-generation.ts:57-96 | a background step touches only its own task and block, and keeps every stored source code |
| CodeGeneration.StepPreserves | src/pages/api/code-generation.ts:47-105 | every background step keeps the invariant |
| CodeGeneration.StepMonotone | src/pages/api/code-generation.ts:57-103 | a task with a pending step is in progress, and a step never lowers its progress |
| CodeGeneration.TerminalIsFinal | src/pages/api/code-generation.ts:79-104 | a completed or failed task accepts no further step |
| CodeGeneration.RunMonotone | src/pages/api/code-generation.ts:47-105 | over any interleaving of requests and steps: the invariant holds, no task disappears, progress never decreases, and terminal rows never change |
| CodeGeneration.PollsNonDecreasing | src/pages/api/code-generation.ts:119-132 | two successful polls of a task, with anything in between, never show its progress going down |
| CodeGeneration.EmptyConsistent | src/pages/api/code-generation.ts:7-8 | the store before any request meets the invariant |
| CodeGeneration.HappyPath | src/pages/api/code-generation.ts:29-96 | with every call succeeding, polls show 0, then 50, then completed at 100, with the id of the inserted `generated_code.py` source code |
| CodeGeneration.AiFailureFailsTask | src/pages/api/code-generation.ts:62-104 | a throwing AI call ends the task failed at 100 with no source code, and no row is inserted |
| CodeGeneration.InsertFailureFailsTask | src/pages/api/code-generation.ts:79-86 | a failed insert issues `{100, failed}` and never the completed update; no source code row appears |
| CodeGeneration.LostFinalWriteStaysInProgress | src/pages/api/code-generation.ts:79-103 | a final update the store does not apply, the completed or the failed one, leaves the task in progress for good, since nothing retries it; after a lost completed update the source code is stored but the row, at 0 or 50, has no `source_code_id` |
| CodeGeneration.NoDeduplication | src/pages/api/code-generation.ts:29-40 | two submissions for one document create two tasks with fresh ids and equal initial rows |
| CodeGeneration.Engine.Serve | src/pages/api/code-generation.ts:7-137 | the in-place handler keeps the invariant; its reply and new state are those of `Handle` |
| CodeGeneration.Engine.Advance | src/pages/api/code-generation.ts:47-105 | the in-place step keeps the invariant, and its new state is that of `Step` |
| DocumentGeneration.FormatDocument | src/pages/api/document-generation.ts:92-102 | title `自動生成ドキュメント`, exactly one section, whose `概要` content is the AI output unchanged |
| DocumentGeneration.FormatDocumentInjective | src/pages/api/document-generation.ts:92-102 | different AI outputs give different documents |
| DocumentGeneration.Newest | src/pages/api/document-generation.ts:23-29 | `None` exactly when no file belongs to the project and the user; otherwise a file of theirs, at least as recent as every other |
| DocumentGeneration.Handle | src/pages/api/document-generation.ts:6-89 | no session gives 401 whatever the method; then non-POST gives 405; then missing fields give 400; 404 exactly when the file query fails or finds nothing; 200 exactly when the file, the download and the insert succeed; on 200 the returned id names the new row of the requested type and project holding the formatted AI text; a failed download gives 500 (read message), unreadable text 500 (generation message), a failed insert 500 (save message); any other status stores nothing |
| DocumentGeneration.AiFailureIsSample | src/pages/api/document-generation.ts:52-58 | a failing AI call acts exactly as an AI answer of the sample text, and never changes the status |
| ConsistencyCheck.SectionsAppend | src/pages/api/consistency-check.ts:67-72 | the sections of a concatenation are those of each part, the second numbered on from the first |
| ConsistencyCheck.SectionAt | src/pages/api/consistency-check.ts:67-72 | the fetched document at position k gets the section numbered k + 1, after the sections of the documents before it |
| ConsistencyCheck.SectionNumbersDistinct | src/pages/api/consistency-check.ts:69 | different section numbers render to different text |
| ConsistencyCheck.BuildUserPrompt | src/pages/api/consistency-check.ts:64-72 | the loop builds the preamble followed by one section per document, numbered from 1 in fetch order |
| ConsistencyCheck.AnalysisOf | src/pages/api/consistency-check.ts:74-102 | the stored result is `null` exactly when the AI answered JSON `null`; the sample object when the call threw or the answer is not JSON; otherwise the parsed value, whatever JSON it is |
| ConsistencyCheck.FallbacksAgree | src/pages/api/consistency-check.ts:79-102 | an AI failure and an unparsable answer give the same sample: score 75, one inconsistency of severity `高` |
| ConsistencyCheck.Handle | src/pages/api/consistency-check.ts:7-130 | guard order 405, 401 (no token), 401 (auth), 400 (ids missing or not an array); a failed fetch gives 500 (fetch message); 404 exactly when no document matches, with the missing-documents message. The AI is asked exactly when documents were found, with the preamble followed by one section per fetched document, numbered from 1 in fetch order. A failed insert then gives 500 (save message). A row is stored exactly when the documents are found and the insert works, with the first document's project, type `整合性` and the analysis. 200 exactly when a row was stored with an analysis, and the body echoes its score, inconsistencies and suggestions (all absent for a parsed value that is not an object); a stored `null` result gives 500 |
| ConsistencyCheck.AiFailureReportsSample | src/pages/api/consistency-check.ts:79-125 | with a failing or unparsable AI answer, a check that stores its row reports the sample's score of 75 |
| ConsistencyCheck.NonObjectAnswerStored | src/pages/api/consistency-check.ts:90-125 | an answer that parses to a number, string, boolean or array is stored as it is, and the reply is 200 with no score, inconsistencies or suggestions |
| QualityCheck.GenerateContent | src/pages/api/quality-check.ts:114-137 | the local generator always answers one issue, `構文エラー` of severity `高` |
| QualityCheck.Checks | src/pages/api/quality-check.ts:47-90 | one check per item, in order, with the item's project, the given type, its drawn score and the generator's issues |
| QualityCheck.Summary | src/pages/api/quality-check.ts:101-108 | the summary has the checks' length and order, with each check's project, type and score |
| QualityCheck.SummaryAppend | src/pages/api/quality-check.ts:93-108 | the summary of a concatenation is the concatenation of the summaries |
| QualityCheck.AllChecks | src/pages/api/quality-check.ts:93 | the document checks (type `ドキュメント`) come first, then the source checks (type `ソースコード`), each with its item's project; scores in [0, 99] give checks with scores in [0, 99] |
| QualityCheck.Handle | src/pages/api/quality-check.ts:5-112 | 405, then 401 (no token), then 401 (auth); then a failed documents fetch, source codes fetch or insert each gives 500 with its own message; 200 exactly when authorised with both fetches and the insert succeeding; on 200 every check is appended and the body is their summary; otherwise nothing is stored |
| QualityCheck.SuccessSummary | src/pages/api/quality-check.ts:93-108 | a successful check stores one row per selected item, and the summary lists the document checks, then the source checks, all scored in [0, 99] |
| QualityCheck.NoIdsNoChecks | src/pages/api/quality-check.ts:24-40 | absent id lists select nothing, so nothing is stored |
| WorkEstimation.SelectEstimate | src/pages/api/work-estimation.ts:88-112 | a truthy AI answer gives a total of 120, any other gives 100; either way the total is the breakdown sum, over the same four phases |
| WorkEstimation.LinesAreNewlinesPlusOne | src/pages/api/work-estimation.ts:53-57 | the line count is the number of newlines plus one per file |
| WorkEstimation.DocumentComplexity | src/pages/api/work-estimation.ts:47-50 | the loop sums the lengths of the serialised contents |
| WorkEstimation.TotalLinesOfCode | src/pages/api/work-estimation.ts:53-57 | the loop sums the split lengths, which is the newlines plus one per file |
| WorkEstimation.Average | src/pages/api/work-estimation.ts:68-75 | 100 without past estimates; otherwise the average times the count is the sum of the totals |
| WorkEstimation.AveragePastHours | src/pages/api/work-estimation.ts:68-75 | the loop computes `Average` |
| WorkEstimation.UniformTotal | src/pages/api/work-estimation.ts:70-73 | past totals that are all h sum to the count times h |
| WorkEstimation.UniformAverage | src/pages/api/work-estimation.ts:68-75 | past totals that are all h average to h |
| WorkEstimation.Handle | src/pages/api/work-estimation.ts:6-139 | no user gives 401 whatever the method; then non-POST gives 405; then a missing project gives 400. The AI is asked exactly when the three queries succeed, about the complexity, the newlines plus one per file and the average. 200 exactly when the insert also succeeds: it appends the selected estimate and the body returns it. A failed query gives 500 before the AI is asked; a failed insert gives 500 after it; both store nothing |
| WorkEstimation.Serve | src/pages/api/work-estimation.ts:6-139 | the handler with its three accumulating loops computes `Handle` |
| WorkEstimation.AiFailureSwallowed | src/pages/api/work-estimation.ts:81-112 | a failing AI call leaves the status as an answer would, and only lowers the stored total from 120 to 100 |
| ProgressReport.Phases | src/pages/api/progress-report.ts:61-68 | five phases in the fixed order, each `進行中` with its drawn value |
| ProgressReport.SumBounds | src/pages/api/progress-report.ts:72 | a sum of values in [lo, hi] lies in [n·lo, n·hi] |
| ProgressReport.OverallProgress | src/pages/api/progress-report.ts:71-73 | the overall figure is the floor of the sum divided by 5 |
| ProgressReport.OverallWithinPhases | src/pages/api/progress-report.ts:71-73 | the overall figure lies between the smallest and the largest phase value |
| ProgressReport.Activities | src/pages/api/progress-report.ts:76-83 | one entry per document, then one per source code, each list in fetch order |
| ProgressReport.PromptCarriesLog | src/pages/api/progress-report.ts:86-92 | the prompt is the fixed head followed by the log joined at newlines, and single-line entries split back out |
| ProgressReport.Handle | src/pages/api/progress-report.ts:6-135 | non-POST gives 405; a missing field gives 400; 400 exactly when a field is missing or the project is unknown, with the unknown-project message in the latter case; a failed documents or source codes fetch gives 500 with its message. The AI is asked exactly when the project exists and both fetches succeed, with the log of the rows created in the period. A failed insert gives 500 (save message). 200 exactly when the insert also succeeds: the body returns the new id, under which the report is stored. Otherwise nothing is stored |
| ProgressReport.StoredReportShape | src/pages/api/progress-report.ts:61-110 | a stored report has the five phases in order, all `進行中`; its overall figure is in [0, 99] and no larger than the largest draw; a failed AI call stores the "no issues" text |
| ProgressReport.DocumentsIn | src/pages/api/progress-report.ts:35-40 | the `.eq`, `.gte` and `.lte` filters on `documents`: every kept row is of the project and created within the period, ends included; every such row is kept |
| ProgressReport.CodesIn | src/pages/api/progress-report.ts:48-53 | the same filters on `source_codes`, by creation time |
| ProgressReport.PeriodInclusive | src/pages/api/progress-report.ts:35-40 | a row created at the start or the end instant is kept |
| ProposalCreation.JoinedContentsSplit | src/pages/api/proposal-creation.ts:67-68 | the contents are joined at newlines in table order: single-line texts split back out of the join |
| ProposalCreation.Draft | src/pages/api/proposal-creation.ts:87 | only the first `{{key_info}}` is replaced, by the extract; the text before and after is kept; a template without it is unchanged |
| ProposalCreation.ProposalUrl | src/pages/api/proposal-creation.ts:118-119 | the URL is `/api/proposal/` followed by the stored id |
| ProposalCreation.ProposalUrlInjective | src/pages/api/proposal-creation.ts:118-119 | different proposals get different URLs |
| ProposalCreation.Handle | src/pages/api/proposal-creation.ts:7-126 | 405, then 401 (no token), then 401 (user), then 400 (missing ids). A missing project, failed documents read or missing template gives 500 with that message and no AI call. Otherwise the AI is asked twice: for the extract, then for the polished draft. The draft uses the sample extract when the first call fails, and is stored unpolished when the second one does. A failed insert or a null answer gives 500 (save message), an empty answer 500 (no-row message). 200 exactly when the insert returns the stored row, with the URL of its id |
| ProposalCreation.BothAiCallsFail | src/pages/api/proposal-creation.ts:81-101 | with both AI calls failing, the stored proposal is the template with the sample extract in place of its placeholder |
| ProposalCreation.DraftAsWritten | src/pages/api/proposal-creation.ts:87 | on extracts without `$` the literal replacement is what the code computes |
| FileUpload.Rejection | src/pages/api/file-upload.ts:62-74 | a file passes exactly when it is PDF or plain text and at most 10 MiB; the type is checked before the size |
| FileUpload.SizeLimitInclusive | src/pages/api/file-upload.ts:69-74 | exactly 10 MiB is accepted, one byte more is not |
| FileUpload.TempFilePath | src/pages/api/file-upload.ts:77-82 | the copy lives under `tmp` of the working directory, under the parser's file name |
| FileUpload.Handle | src/pages/api/file-upload.ts:21-113 | 405 before any auth check, then 401 (no `Bearer ` token), then 401 (auth); an unparsable form gives 500 (parse message); no file gives 400 (no-file message); 400 exactly when the form parsed and the file is missing or rejected, with the rejection's message. a failed copy gives 500 (copy message), a failed record insert 500 (record message). 200 exactly when the copy and the insert also succeed: the body's path is the stored row's path |
| FileUpload.TypeCheckedFirst | src/pages/api/file-upload.ts:62-67 | a file of the wrong type gets the type error whatever its size |
| Http.Token | src/pages/api/quality-check.ts:12 | the token is the second piece of the header split at the separator, when it exists and is not empty |
| Http.NoSeparatorNoToken | src/pages/api/quality-check.ts:12-15 | a header without the separator yields no token |
| Http.SpaceSplitToken | src/pages/api/quality-check.ts:12 | `Bearer t` split at a space yields t |
| Http.BearerSplitToken | src/pages/api/file-upload.ts:28 | `Bearer t` split at `Bearer ` yields t |
| Query.Where | src/pages/api/work-estimation.ts:28-31 | the rows kept are table rows meeting the filter, every qualifying row is kept, and the result is empty exactly when no row qualifies |
| Query.WhereAll | src/pages/api/work-estimation.ts:28-31 | when every row qualifies, the filter keeps the whole table |
| Query.In | src/pages/api/consistency-check.ts:40-43 | `.in`: exactly the rows whose key is one of the values, and empty exactly when none is |
| Query.InNothing | src/pages/api/quality-check.ts:30 | an empty list of values selects nothing |
| Strings.IndexOf | src/pages/api/proposal-creation.ts:87 | the first position at or after `from` where the pattern occurs, or none |
| Strings.SplitCharLength | src/pages/api/work-estimation.ts:55-56 | splitting at a character gives one piece more than the character's occurrences |
| Strings.SplitJoin | src/pages/api/progress-report.ts:91-92 | splitting a join of pieces without the separator gives the pieces back |
| Strings.DecimalString | src/pages/api/consistency-check.ts:69 | a number renders as a non-empty string of digits |
| Strings.DecimalRoundTrip | src/pages/api/consistency-check.ts:69 | reading back a rendered number gives the number |
| Strings.ReplaceFirst | src/pages/api/proposal-creation.ts:87 | the first occurrence of the pattern is replaced, literally; without one the text is unchanged |
| Strings.JsReplaceFirst | src/pages/api/proposal-creation.ts:87 | `String.prototype.replace` with a string pattern: without an occurrence the text is unchanged; otherwise the text before the first occurrence and after it is kept, and the occurrence becomes the replacement with `$$`, `$&`, `` $` `` and `$'` expanded |
| Strings.JsReplaceAgreesWithoutDollar | src/pages/api/proposal-creation.ts:87 | `String.prototype.replace` with a replacement without `$` agrees with the literal replacement |
| Strings.JsReplacePatterns | src/pages/api/proposal-creation.ts:87 | for every text with an occurrence of the pattern, `String.prototype.replace` inserts `$` for `$$`, the match for `$&`, the text before it for `` $` `` and the text after it for `$'` |
| Strings.JsReplaceExpandsMatch | src/pages/api/proposal-creation.ts:87 | for every text with an occurrence of a pattern other than `$&`, `replace` with `$&` leaves the text unchanged, while the literal replacement changes it |
| Strings.JsReplaceKeepsPlaceholder | src/pages/api/proposal-creation.ts:87 | on the template placeholder itself, an extract of `$&` gives `{{key_info}}` back, where the literal replacement gives `$&` |
| Selection.Remove | src/pages/quality-check/index.tsx:68 | the id is gone and every other id keeps its occurrences; absent ids leave the list as it was |
| Selection.RemoveAppend | src/pages/quality-check/index.tsx:68 | removal works part by part, so the remaining ids keep their order |
| Selection.Toggle | src/pages/quality-check/index.tsx:65-73 | the toggled id is selected afterwards exactly when it was not before, and no other id changes membership. An absent id is appended at the end; a present one is removed everywhere |
| Selection.ToggleKeepsNoDuplicates | src/pages/quality-check/index.tsx:65-73 | a toggle keeps a duplicate-free selection duplicate-free |
| Selection.ToggleTwice | src/pages/quality-check/index.tsx:65-73 | selecting then deselecting restores the selection; deselecting then reselecting moves the id to the end |
| Selection.TicksFromZero | src/pages/quality-check/index.tsx:80-91 | from 0, n ticks give min(10·n, 100) |
| Selection.TicksOnGrid | src/pages/quality-check/index.tsx:80-91 | the values shown are multiples of 10 in [0, 100] |
| Selection.FinishesOnEleventhTick | src/pages/quality-check/index.tsx:80-91 | the interval is cleared exactly from the eleventh tick on |
| QualityCheckPage.Page.SelectItem | src/pages/quality-check/index.tsx:65-73 | the selection becomes its toggle and nothing else changes |
| QualityCheckPage.Page.StartCheck | src/pages/quality-check/index.tsx:75-104 | only an enabled button starts a check (selection non-empty, no check running); the counter restarts at 0; the insert uses the first selected item as project and type `ドキュメント`; the check stays running, so the button stays disabled |
| QualityCheckPage.Page.OnTick | src/pages/quality-check/index.tsx:80-91 | one tick: below 100 it adds 10; at 100 it stays there, stops the interval and routes to the result page |
| ConsistencyCheckPage.Page.SelectDocument | src/pages/consistency-check/index.tsx:54-60 | the selection becomes its toggle and nothing else changes |
| ConsistencyCheckPage.Page.StartCheck | src/pages/consistency-check/index.tsx:62-81 | only an enabled button starts a check; the counter restarts at 0; the call `start_consistency_check` carries the whole selection |
| ConsistencyCheckPage.Page.OnTick | src/pages/consistency-check/index.tsx:66-76 | one tick: below 100 it adds 10; at 100 it stays there, stops the interval, ends the check and routes to the result page |
| WorkEstimationResult.SampleTotalsItsBreakdown | src/pages/work-estimation-result/index.tsx:67-80 | the sample's total of 120 is its breakdown sum 30 + 40 + 30 + 20 |
| WorkEstimationResult.HoursSumIsBreakdownHours | src/pages/work-estimation-result/index.tsx:85 | summing the entry objects' hours gives the breakdown sum of their values |
| WorkEstimationResult.Build | src/pages/work-estimation-result/index.tsx:59-60 | the loaded estimate becomes fresh, distinct entry objects holding its values |
| WorkEstimationResult.SumHours | src/pages/work-estimation-result/index.tsx:85 | the `reduce` computes the sum of the entries' hours |
| WorkEstimationResult.ResultPage.Load | src/pages/work-estimation-result/index.tsx:36-61 | with no project or no estimate the sample is shown, otherwise the newest estimate; loading ends; the adjusted estimate is the row's own estimate object |
| WorkEstimationResult.ResultPage.AdjustEntry | src/pages/work-estimation-result/index.tsx:82-91 | a new estimate object shares the entries; only entry `index` changes, and only its hours, to the value; the new total is the sum of the hours. The previous estimate object sees the new hours but keeps its old total |
| WorkEstimationResult.ResultPage.Save | src/pages/work-estimation-result/index.tsx:93-106 | nothing without a loaded row; an update error changes nothing and alerts the failure. Otherwise the row with the loaded id, if there is one, gets the adjusted estimate, and the success alert is shown |
| WorkEstimationResult.AdjustedSampleTotal | src/pages/work-estimation-result/index.tsx:67-91 | the sample with design adjusted to 35 hours totals 115 |

## Left out

- The store (Supabase), its authentication, the storage download, `axios`, `fs` and `formidable` are not modelled. Their results are inputs: a user or none, success flags, generated ids, a parsed form.
- The AI provider (`getLlmModelAndGenerateContent` of `@/utils/functions`) is not part of this model. Its answer is an input: `None` when it throws, otherwise the text.
- `JSON.stringify` and `JSON.parse` are not modelled. A serialised content is a given string, and a parse outcome is an input.
- `Math.random` is not modelled. The scores and the phase progress it draws are inputs in [0, 99].
- `new Date()`, timestamps and their textual form are not modelled. The store compares them as given integers and renders them as given text.
- Concurrency is reduced to interleavings of whole steps. This covers `Promise.all` and the unawaited background block of code generation, whose awaited calls are separate steps. The `setInterval` timers are one `OnTick` call per firing.
- The `try/catch` around the whole handler body is not modelled where nothing inside it can throw in the model: quality check (the stub's catch cannot be reached), work estimation and document generation beyond the cases named in their contracts.
- WorkEstimation.Average: uses exact real division, without JavaScript's floating-point rounding.
- String lengths are counted in characters, not UTF-16 code units, so `JSON.stringify(...).length` of astral characters is not modelled.
- FileUpload.TempFilePath: does not model `path.join` normalisation (`..`, duplicate or trailing separators), nor the `tmp` directory creation.
- ProposalCreation.Handle: a store error on the project or template lookup is folded into "row missing"; both give the same 500.
- ProgressReport.Handle: a store error on the project lookup is folded into "project unknown"; both give the same 400 with the same message.
- ProgressReport.Handle: an insert that succeeds but returns no data (`reportInsertData` null) is not modelled; the insert is an error or an id. The handler has no `try/catch`, so the uncaught throw case is left out too.
- Prompt wording is kept only where a property is stated about it: the per-document numbering of the consistency check, the activity log of the progress report, and the two proposal prompts.
- `src/pages/api/auth.ts` and the rendering-only pages (dashboard, login, views, forms) are not part of this model: their logic is rendering, navigation and calls into the authentication library.
- Page state around the modelled logic is not modelled: data loading, the session redirect, and the insert and remote-call results, which the pages only log.
- CodeGeneration: a uuid is assumed not to repeat. A new task id or source code id must be unused (as a `requires` on the step and the request).
- DocumentGeneration.Handle: the generated id of the new document is an input and is not required to be unused; an id already in the table is overwritten, where the store would report a duplicate key. The same holds for the ids the store returns to ProgressReport and ProposalCreation.
- CodeGeneration.TaskFacts: states the project and file name of the linked source code, not that its content is the AI's answer.
- ProposalCreation.Handle: builds the draft with the intended literal replacement (`Draft`), not with the `$`-expanding `String.prototype.replace` of `src/pages/api/proposal-creation.ts:87`; the as-written behaviour and its counterexample are under "## Findings".
- WorkEstimationResult.ResultPage.AdjustEntry: hours are integers; the fractional values and `NaN` that `Number(e.target.value)` can yield are not modelled.

## Findings

| source | as written | input that shows it | evidently intended | confidence | as-written member | corrected member |
|---|---|---|---|---|---|---|
| src/pages/api/proposal-creation.ts:87 | `content.replace('{{key_info}}', extract)` with a string replacement, which expands the `$&`, `$$`, `` $` `` and `$'` patterns of the extract | an AI extract of `$&` puts `{{key_info}}` back into the proposal instead of the text `$&` | the extract is inserted literally in place of the placeholder | not executed | Strings.JsReplaceKeepsPlaceholder | ProposalCreation.Draft |
