# CUA pipeline core — a Dafny model

This project models the core of a pipeline that generates single-page web
applications and tests them with computer-use agents (CUA). A coding model
writes an initial website. Task prompts ask for thirty test tasks. A CUA
policy then drives a browser through each task, step by step. UI-TARS over
the Doubao prompt is one such policy, and the Operator Responses API is the
other. A verifier judges the screenshots, a commenter analyses the failures
on a storyboard, and the coding model revises the website.

The model covers the parts of that pipeline that are logic rather than I/O:

- **The two CUA policies.**
  - Decoding an Operator action into the internal `Action` vocabulary.
  - The history text with its repeat-click warning.
  - The continuation state (`lastResponseId`, `lastCallId`) that chooses between the initial call and the follow-up call.
  - Extraction of the `Thought:` and `Action:` lines.
  - The retry loops around the model calls.
- **The model client.**
  - Rate-limit detection.
  - The three retry policies: `call_model`, the GPT-5 path and the Operator call.
  - Image-source classification.
  - `${VAR}` key substitution and the missing-key check.
  - Routing to the model of each role.
- **The commenter's browser pool** (a LIFO list capped at three) and its five-attempt analysis loop.
- **The browser controller's input sequencing**, kept as a log of mouse and keyboard events.
  - Key-name mapping.
  - Nested modifier presses.
  - The scroll sign rule.
  - Drags.
- **The verifier.**
  - Request validation.
  - Code-fence extraction.
  - The verdict schema check.
  - The five-attempt loop.
  - Data-URL stripping.
- **The progress tracker.** It keeps a status matrix over (model × app) cells, with append-only logs, truncation rules, summary counts and the error list.
- **The parallel runner.**
  - Task-matrix enumeration.
  - The task's own status updates on its cell, then exception capture.
  - Summary counts.
  - The incremental progress summary.
- **The storyboard helpers.**
  - Step captions.
  - The crop window.
  - Greedy word wrap.
  - Binary-search truncation.
- **The prompt builders.**
  - The Doubao and Operator prompts.
  - Tag-based task templates.
  - The coder prompts and their flag-guarded sections.
- **Run keys and cache paths.**

## How the model is built

- Each retry loop reads a finite sequence of call outcomes. The outcomes stand in for the calls the loop makes.
- A loop's result is `Retry.Outcome`:
  - `Done` when the loop returns a value;
  - `GaveUp` when it raises;
  - `Pending` when the sequence runs out before the source would stop, meaning the loop would call again.
- Each retry method is proved equal to a specification function of its outcome sequence. The lemmas about those functions state the bounds and give-up conditions.
- Sleeps are recorded as a list of delays.
- Collaborators that are library code are function-typed parameters:
  - SHA-1;
  - `json.loads`;
  - the file reads of images;
  - `os.getenv`;
  - the font's text width;
  - the UI-TARS action parser.
- State that the source updates in place is held in classes:
  - the browser pool;
  - the tracker's maps;
  - the browser's event log;
  - the Operator policy's continuation ids;
  - the progress directory.
- Their methods state the whole new state in `ensures` clauses.
- The Operator policy's history lines contain the arrow as the mis-encoded text "â†’". The model keeps those characters as they are.
- The long fixed prose of the coder prompts is a parameter, `CoderPrompts.RevisionTexts`, and so are the six focus blocks of the task prompt (`TasksPrompts.FocusBodies`).
  - The source's own texts are `CoderPrompts.SourceTexts` and `TasksPrompts.SourceBodies`, and the prompt functions apply these.
  - The shape lemmas hold for any texts. They use only the short pieces the source fixes around the prose: the last requirement line, section K, the closing request and the block headings.

Two behaviours of the source matter here:

- **Remote `call_model` retries.** It increments its attempt counter before it tests `attempt <= 5`. A run of rate-limit errors makes six calls, and the sixth 429 propagates (`ModelClient.SixthRateLimitPropagates`).
- **The commenter's 5-slot semaphore.** It is held only while a browser is being started (agents/base_commenter.py:45-48). It limits concurrent start-ups, not live browsers, so the model keeps no ceiling on live sessions. The only bound proved is that at most three browsers are idle.

## Model

| member | source | states |
|---|---|---|
| `Actions.RepeatWarningOfWindow` | agents/operator_cua_policy.py:70-79 | For any window of at least two steps, the repeat warning is non-empty iff the last two steps are `left_click` with equal coordinates, and it then contains that coordinate's list text (`agents/cua_policy.py:66-75` is identical) |
| `Matrix.CellOrderIndex` | utils/progress_tracker.py:352-354 | The summary visits model i and app j at position i·\|apps\| + j: model-major, app-minor |
| `Matrix.CellOrderMembership` | utils/parallel_runner.py:33-34 | A cell is visited iff its model and its app are listed |
| `Actions.Window` | agents/operator_cua_policy.py:41 | `trajectory[-n:]`: the last min(n, \|t\|) steps of the trajectory |
| `OperatorCua.ConvertRejects` | agents/operator_cua_policy.py:198-201 | Conversion fails iff the type is missing, the type is not accepted, or it is a drag without a target; a missing type gives "Operator action missing type" and an unknown type its own error |
| `OperatorCua.ConvertAcceptedNonKey` | agents/operator_cua_policy.py:198-278 | Among the accepted non-key types, the only failure is a `drag` missing `to_x` or `to_y` |
| `OperatorCua.ConvertClick` | agents/operator_cua_policy.py:205-214 | `click` becomes `right_click` iff `button` lower-cases to "right", otherwise `left_click`, at (x, y) with missing coordinates read as 0 |
| `OperatorCua.ConvertScroll` | agents/operator_cua_policy.py:240-252 | `scroll` takes `scroll_x`/`scroll_y`, else `delta_x`/`delta_y`, else 0. It is anchored at (x, y), with a missing x taken as 640 and a missing y as 360 |
| `OperatorCua.ConvertKeys` | agents/operator_cua_policy.py:254-259 | Key actions carry `keys` when given, else `[key]` for a non-empty key, else `[]` |
| `OperatorCua.ConvertDrag` | agents/operator_cua_policy.py:267-276 | A drag with a source and a target is a drag, `from_x` falling back to `x`; with only a target it is a mouse move; without a target it fails |
| `OperatorCua.HistoryText` | agents/operator_cua_policy.py:37-68 | The `+=` loop over the last three steps builds exactly `History(trajectory)` |
| `OperatorCua.HistoryEntryOfStep` | agents/operator_cua_policy.py:42-68 | Entry j of the history is the rendering of window step j, numbered by its position in the whole trajectory |
| `OperatorCua.HistoryShowsRecentSteps` | agents/operator_cua_policy.py:41-68 | The rendered entry of each of the last three steps appears in the history, in order. The entry is "Step n: …" followed by the result suffix, except for a `left_click` without a coordinate, whose entry is only the result suffix |
| `OperatorCua.HistoryEmptyIff` | agents/operator_cua_policy.py:40-88 | The history is empty iff the trajectory is, so "No previous actions" is shown exactly then |
| `OperatorCua.ResultSuffixSuccessIff` | agents/operator_cua_policy.py:65-68 | A history line ends in "Success" iff the step's success flag is set, else in "Failed: " and the error or "unknown error" |
| `OperatorCua.ConvertedScrollReadsUp` | agents/operator_cua_policy.py:54-57 | A converted Operator scroll (lines 240-252) carries no `pixels` field, so its history line always says "Scrolled up" |
| `OperatorCua.EmptyRepliesAreUnbounded` | agents/operator_cua_policy.py:119-121 | Any number of empty replies before a usable one is retried without reaching the bound |
| `OperatorCua.GivesUpAfterFiveFailures` | agents/operator_cua_policy.py:185-196 | Five non-empty failures (no `computer_call`, or a raise) end the loop with an error after exactly five calls |
| `OperatorCua.EarlyFailureRetried` | agents/operator_cua_policy.py:185-196 | A failure on the first call is retried: the loop makes a second call or is still waiting for one |
| `OperatorCua.FetchOutcomes` | agents/operator_cua_policy.py:96-196 | The loop returns the conversion of the first usable reply: one with a `computer_call` that converts. Every earlier reply was unusable, and a `computer_call` that fails to convert is retried. The loop gives up only at attempt counter 5 on a non-empty failure |
| `OperatorCua.OperatorPolicy.constructor` | agents/operator_cua_policy.py:13-22 | Both continuation ids start unset; the step budget is the one given |
| `OperatorCua.OperatorPolicy.StartTask` | agents/operator_cua_policy.py:24-30 | Starting a task resets both continuation ids |
| `OperatorCua.OperatorPolicy.BuildPrompt` | agents/operator_cua_policy.py:32-88 | The prompt is the Operator template filled with the task, the repeat warning of the 3-step window, the history (or "No previous actions") and the step counter |
| `OperatorCua.OperatorPolicy.NextRequest` | agents/operator_cua_policy.py:101-117 | The initial call is chosen iff `lastResponseId` is unset or empty; otherwise the follow-up call |
| `OperatorCua.OperatorPolicy.GetAction` | agents/operator_cua_policy.py:90-196 | The loop's result and call count are `Fetch(replies)`; the ids change only after a reply with a `computer_call`, and only to that reply's ids |
| `OperatorCua.OperatorPolicy.Examine` | agents/operator_cua_policy.py:119-196 | One reply: whether the loop stops on it, with what verdict, and the id update a usable reply makes |
| `UiTarsCua.CreatePolicy` | agents/cua_policy.py:13-20 | The Operator policy iff the model name is exactly "operator", UI-TARS otherwise |
| `UiTarsCua.EntryRendering` | agents/cua_policy.py:43-58 | A click line shows "click(point='<point>x y</point>')", a click without a coordinate shows no action text, typing shows "type(content='…')", and a scroll reads 'down' exactly when its pixels are negative |
| `UiTarsCua.EntryResult` | agents/cua_policy.py:60-64 | A line ends in " -> Success" for a successful step, else in " -> Failed: " and the error or "unknown error" |
| `UiTarsCua.HistoryShowsRecentSteps` | agents/cua_policy.py:36-64 | Each of the last five steps appears in the history as its Doubao action text followed by " -> Success" or " -> Failed: …" |
| `UiTarsCua.HistoryEmptyIff` | agents/cua_policy.py:36-85 | The history is empty iff the trajectory is |
| `UiTarsCua.HistoryText` | agents/cua_policy.py:33-64 | The `+=` loop builds exactly `History(trajectory)` |
| `UiTarsCua.InstructionOrder` | agents/cua_policy.py:78-85 | The instruction starts with the task and ends with "Current step: c/max", with the warning, then the history or "No previous actions", in between |
| `UiTarsCua.BuildPrompt` | agents/cua_policy.py:28-90 | The prompt is the Doubao prompt around the instruction built from the task, the warning of the 5-step window and the history |
| `UiTarsCua.LastMarked` | agents/cua_policy.py:120-127 | The last trimmed line starting with the marker, and no marked line after it, or none at all |
| `UiTarsCua.MarkedTextStep` | agents/cua_policy.py:120-127 | One more line overwrites the extracted text iff it is marked |
| `UiTarsCua.ExtractThoughtAction` | agents/cua_policy.py:120-127 | The line loop yields the text after "Thought:" and "Action:" of the last such lines, trimmed, or "" |
| `UiTarsCua.GetAction` | agents/cua_policy.py:92-162 | The loop never gives up; it returns the first action parsed from the first reply with an Action line and a non-empty parse, and otherwise keeps retrying |
| `ModelClient.RateLimitIff` | utils/model_client.py:75-78 | An error is a rate-limit error iff its text contains "429" |
| `ModelClient.LocalDelayBounds` | utils/model_client.py:259-267 | The local retry delay min(2 + 0.5·attempt, 10) never decreases, lies in (2, 10] from attempt 1 on, and is 10 exactly from attempt 16 on |
| `ModelClient.CallModel` | utils/model_client.py:167-276 | The retry loop's result and call count are `CallModelResult`, and its sleeps are the delays of the calls retried |
| `ModelClient.CallModelEndsAt` | utils/model_client.py:167-276 | When the loop first stops at an outcome, the call answers with that outcome, its content or its error, after one call more than the outcomes before it |
| `ModelClient.LocalNeverRaises` | utils/model_client.py:259-267 | A local model never gives up; when it returns, it returns the first value returned |
| `ModelClient.RemoteAtMostSixCalls` | utils/model_client.py:256-276 | A remote model makes at most six calls, and with six outcomes it has stopped |
| `ModelClient.SixthRateLimitPropagates` | utils/model_client.py:268-276 | Six rate-limit errors in a row: the sixth propagates after six calls |
| `ModelClient.OtherErrorPropagates` | utils/model_client.py:268-276 | A non-429 error after k rate-limit errors propagates at once, on call k + 1 |
| `ModelClient.CallGpt5` | utils/model_client.py:80-165 | The loop's result is `Gpt5Result`; it sleeps only after raised calls, 2^attempt after a 429 and 1 otherwise, and after the last call only when that was a 429 |
| `ModelClient.Gpt5AtMostFiveAttempts` | utils/model_client.py:106-165 | At most five attempts are made, and giving up takes all five |
| `ModelClient.Gpt5RateLimitedThroughout` | utils/model_client.py:128-165 | Five 429s give "Max retries exceeded" after sleeping 1, 2, 4, 8 and 16 |
| `ModelClient.CallOperatorModel` | utils/model_client.py:309-352 | The loop's result is `OperatorResult`, with the same delays as a remote `call_model` |
| `ModelClient.OperatorRaisesOnSixthFailure` | utils/model_client.py:309-352 | Any error is retried; the sixth consecutive failure propagates, so at most six calls |
| `ModelClient.ImageUrl` | utils/model_client.py:183-199 | A "data:image" string is used as is; a path-like string is read from file; anything else is prefixed as PNG base64; the result is always a data URL |
| `ModelClient.Base64NeverReadAsFile` | utils/model_client.py:183-199 | Strings starting with iVBOR, /9j or UklG, or of length ≥ 1000, are never read as files |
| `ModelClient.NoSeparatorIsBase64` | utils/model_client.py:183-199 | A string without '/' or '\\' that is not a data URL is taken as base64 |
| `ModelClient.PlaceholderRoundTrip` | utils/model_client.py:33-38 | "${NAME}" is recognised as a placeholder, and NAME is read back from it |
| `ModelClient.ExpandKey` | utils/model_client.py:33-38 | A "${NAME}" api_key becomes the environment value of NAME; any other value is unchanged |
| `ModelClient.LoadConfig` | utils/model_client.py:21-39 | A missing file, a non-mapping or a file without `models` is an error; otherwise every model's key is expanded and nothing else changes |
| `ModelClient.MissingVars` | utils/model_client.py:41-54 | No variable is reported missing iff no openai/azure_openai model lacks its key |
| `ModelClient.MissingVarsReportEach` | utils/model_client.py:41-54 | Every openai/azure_openai model without a key is reported |
| `ModelClient.CheckEnvironment` | utils/model_client.py:41-54 | Succeeds iff no model needs a missing key; else one error listing the missing variables |
| `ModelClient.Create` | utils/model_client.py:15-17 | A client is built exactly when the configuration has a `models` list and, after `${VAR}` expansion, no OpenAI or Azure model lacks its key. Its entries are the file's entries in order, with the keys expanded |
| `ModelClient.CallCuaModel` | utils/model_client.py:477-485 | "operator" goes to the Operator API with the first image or none; any other model to `call_model` at temperature 0.3 with all images |
| `ModelClient.CallCoder` | utils/model_client.py:446-458 | "gpt5" takes the GPT-5 path with non-empty verbosity and effort; other models `call_model`; temperature 0.7, no images |
| `ModelClient.CallJudge` | utils/model_client.py:460-462 | The judge is "gpt5" at temperature 0.3 with the given images |
| `ModelClient.CallTaskGenerator` | utils/model_client.py:464-466 | Task generation uses "gpt5" at temperature 0.3 without images |
| `ModelClient.JudgeRoute` | utils/model_client.py:460-462 | The judge is exactly the CUA call for "gpt5" (plain `call_model`); it is neither the commenter's GPT-5 path for "gpt5" nor the coder's call |
| `ModelClient.TaskGeneratorRoute` | utils/model_client.py:464-466 | Task generation is the judge call without images; unlike the coder's "gpt5" call it takes the plain path, at temperature 0.3 rather than 0.7 |
| `ModelClient.CallCommenter` | utils/model_client.py:468-475 | "gpt5" takes the GPT-5 path with low verbosity and minimal effort; temperature 0.3 with the images |
| `Commenter.BrowserPool.constructor` | agents/base_commenter.py:14 | The pool starts empty |
| `Commenter.BrowserPool.Acquire` | agents/base_commenter.py:38-48 | Pops the most recently returned idle browser, and starts a new one only when the pool is empty |
| `Commenter.BrowserPool.Release` | agents/base_commenter.py:50-59 | Below capacity the browser is pushed; at capacity it is closed and the pool is unchanged; at most three stay idle |
| `Commenter.BrowserPool.CaptureScreenshot` | agents/base_commenter.py:61-96 | The browser taken is back in the pool afterwards whether the work succeeded or failed, and the work's result is returned |
| `Commenter.ActualModelName` | agents/base_commenter.py:23-29 | "qwen" maps to "qwen2.5-vl-72b"; every other name to itself |
| `Commenter.ActualModelNameIdempotent` | agents/base_commenter.py:23-29 | Mapping twice is mapping once, and the result is never "qwen" |
| `Commenter.AnalyzeSingleFailure` | agents/base_commenter.py:107-149 | The loop's result is `AnalysisResult`; it sleeps after each exception but the last attempt's |
| `Commenter.EndsAt` | agents/base_commenter.py:107-149 | With a storyboard and its inputs ready, the first attempt that stops the loop decides the analysis and the number of calls |
| `Commenter.AnalysisBounds` | agents/base_commenter.py:120-146 | At most five calls; none without a storyboard; the method never raises; with five outcomes it has an answer |
| `Commenter.FirstSubstantialReplyWins` | agents/base_commenter.py:132-139 | The first reply longer than 30 characters once stripped is returned, stripped |
| `Commenter.NoSubstantialReply` | agents/base_commenter.py:140-146 | Without a long enough reply, the answer reports the fifth attempt's exception, or that no valid response was received |
| `BrowserControl.MapKeyNameIgnoresCase` | utils/browser.py:108-146 | Two names equal up to case map alike, unless both are unmapped and kept as given |
| `BrowserControl.FunctionKeys` | utils/browser.py:141-145 | f1..f12 in any case map to F1..F12 |
| `BrowserControl.OtherFNumbersUnchanged` | utils/browser.py:141-146 | f0 and f13 and above are not function keys and are returned unchanged |
| `BrowserControl.TableHasNoF` | utils/browser.py:108-140 | No table entry starts with 'f', so the function-key rule decides those names |
| `BrowserControl.PressNesting` | utils/browser.py:154-165 | Modifiers go down in order, the last key is pressed, modifiers go up in reverse order |
| `BrowserControl.PressReleasesAll` | utils/browser.py:154-165 | Every key pressed down is released |
| `BrowserControl.ScrollUpAnyCase` | utils/browser.py:66-73 | For every word, the scroll goes up by the amount exactly when the word is "up" in any mix of letter cases, and down by the same amount otherwise |
| `BrowserControl.BrowserController.constructor` | utils/browser.py:6-14 | The controller starts with the viewport size and no input events |
| `BrowserControl.BrowserController.ClickAt` | utils/browser.py:54-58 | One left click at (x, y); "Clicked" |
| `BrowserControl.BrowserController.TypeText` | utils/browser.py:60-64 | One typing event; "Typed: " and the text |
| `BrowserControl.BrowserController.Scroll` | utils/browser.py:66-73 | One scroll by ±500 by the sign rule; "Scrolled " and the direction |
| `BrowserControl.BrowserController.ScrollBy` | utils/browser.py:75-80 | One wheel event (dx, dy) with its message |
| `BrowserControl.BrowserController.ScrollToCoordinates` | utils/browser.py:82-88 | A move to the point, then a wheel by ±pixels by the sign rule |
| `BrowserControl.BrowserController.DoubleClickAt` | utils/browser.py:90-94 | One double click; "Double clicked" |
| `BrowserControl.BrowserController.RightClickAt` | utils/browser.py:96-100 | One right-button click; "Right clicked" |
| `BrowserControl.BrowserController.MoveTo` | utils/browser.py:102-106 | One mouse move; "Mouse moved" |
| `BrowserControl.BrowserController.PressKeys` | utils/browser.py:148-168 | No keys: failure "No keys provided" and no events; otherwise the nested press of the mapped names, reported with the original names joined by " + " |
| `BrowserControl.BrowserController.PressCombination` | utils/browser.py:156-165 | The events added are exactly the key combination's: each modifier down in order, the last key pressed, the modifiers up in reverse order |
| `BrowserControl.BrowserController.DragTo` | utils/browser.py:170-175 | A move to the target then a release |
| `BrowserControl.BrowserController.MouseDownAt` | utils/browser.py:177-182 | A move to the point then a press |
| `BrowserControl.BrowserController.ReleaseMouse` | utils/browser.py:184-188 | One release |
| `BrowserControl.BrowserController.DragFromTo` | utils/browser.py:190-197 | Move to the source, down, move to the target, up; "Dragged from (x1,y1) to (x2,y2)" |
| `BrowserControl.DragBalanced` | utils/browser.py:190-197 | After any earlier events, the button is held from the drag's press through the move to the target, and the drag leaves it released |
| `VlmVerifier.ExtractFencedShape` | agents/vlm_verifier.py:88-100 | Without fences the text is kept whole; after a "```json" fence the result is a prefix of what follows it; once any fence is present, none remains in the result |
| `VlmVerifier.FencedJsonRoundTrip` | agents/vlm_verifier.py:88-100 | A JSON body fenced by "```json" … "```" is recovered exactly |
| `VlmVerifier.CheckVerdict` | agents/vlm_verifier.py:58-66 | A verdict is accepted iff it is an object whose `verdict` is pass or fail and which has `confidence`, `reason` and `used_screenshots` |
| `VlmVerifier.CheckVerdictErrors` | agents/vlm_verifier.py:58-66 | A bad verdict value and a missing field are rejected with their own messages |
| `VlmVerifier.DataUrlRoundTrip` | agents/vlm_verifier.py:102-121 | Stripping a PNG data URL gives back its base64 payload |
| `VlmVerifier.StripsFirst` | agents/vlm_verifier.py:108-115 | Surrounding whitespace does not change the result |
| `VlmVerifier.ValidateRequest` | agents/vlm_verifier.py:32-35 | Only "screenshot_only" and "screenshot_expected" pass; the latter needs a non-empty expected text |
| `VlmVerifier.VerifierImages` | agents/vlm_verifier.py:38-43 | One image per screenshot |
| `VlmVerifier.Verify` | agents/vlm_verifier.py:22-74 | The loop's result is `VerifyResult`; valid requests send the screenshots' images |
| `VlmVerifier.VerifyEndsAt` | agents/vlm_verifier.py:22-74 | For a valid request, the first attempt whose verdict passes, or the fifth, decides the answer and the number of calls |
| `VlmVerifier.VerifyBounds` | agents/vlm_verifier.py:32-74 | An invalid request makes no call; at most five calls; the first valid verdict is returned, else the last error is raised |
| `Progress.ShortenBounds` | utils/progress_tracker.py:55 | A shortened error is at most 150 characters, unchanged iff it fits, else it starts with the first 147 characters |
| `Progress.TruncateAnalysisBounds` | utils/progress_tracker.py:96 | Analysis text over 200 characters is kept as its first 200 and "..." |
| `Progress.RetryLinesAt` | utils/progress_tracker.py:61-75 | List-valued retry info logs one line per attempt, line k for attempt k |
| `Progress.UpdateLogLength` | utils/progress_tracker.py:51-79 | An update appends one error line with a detail, plus one line per attempt or one summary line with retry info, and nothing otherwise |
| `Progress.WaitingNotCounted` | utils/progress_tracker.py:346-365 | A waiting cell counts as neither completed nor failed |
| `Progress.TallyAllWaiting` | utils/progress_tracker.py:346-365 | A matrix of waiting cells, as a fresh tracker has, tallies no completed and no failed cell |
| `Progress.ErrorsOfMembers` | utils/progress_tracker.py:367-381 | A record is listed iff its cell is in the matrix with a non-empty error, carrying that error and the cell's status |
| `Progress.ProgressTracker.constructor` | utils/progress_tracker.py:10-44 | Every cell of the matrix is "⏳ Waiting", with no error, no retry info and empty logs |
| `Progress.ProgressTracker.UpdateStatus` | utils/progress_tracker.py:46-80 | An unknown cell changes nothing; a known one gets the status, the error and retry details when given, and their log lines appended |
| `Progress.ProgressTracker.RecordError` | utils/progress_tracker.py:51-56 | A non-empty detail is stored and exactly one shortened "ERROR:" line is appended |
| `Progress.ProgressTracker.RecordRetry` | utils/progress_tracker.py:57-79 | Non-empty retry info is stored and its log lines are appended |
| `Progress.ProgressTracker.AppendRetryLog` | utils/progress_tracker.py:57-79 | A list appends one line per attempt; anything else one shortened "RETRY:" line |
| `Progress.ProgressTracker.AppendRetryLines` | utils/progress_tracker.py:61-75 | The attempt loop appends the attempts' lines in order |
| `Progress.ProgressTracker.AddTimingInfo` | utils/progress_tracker.py:82-89 | A known cell's timing log gets one line appended; nothing else changes |
| `Progress.ProgressTracker.AddAnalysisInfo` | utils/progress_tracker.py:91-100 | A known cell's analysis log gets one truncated line appended; nothing else changes |
| `Progress.ProgressTracker.GetSummary` | utils/progress_tracker.py:346-365 | total = \|models\|·\|apps\|; completed and failed are the tally of "✅" and other "❌" cells; running = total − completed − failed ≥ 0 |
| `Progress.ProgressTracker.TallyRow` | utils/progress_tracker.py:352-358 | The inner loop over one model's apps adds that row's completed and failed cells to the running tally |
| `Progress.ProgressTracker.GetAllErrors` | utils/progress_tracker.py:367-381 | The cells with a non-empty error, in model-major then app order |
| `ParallelRun.OneSemaphoreForAll` | utils/parallel_runner.py:83-85 | Every model gets the same default semaphore |
| `ParallelRun.ModelSemaphore` | utils/parallel_runner.py:83-85 | Whatever the model, the task waits on the default semaphore |
| `ParallelRun.ScheduledMembers` | utils/parallel_runner.py:32-46 | A pair is scheduled iff it is in the matrix and, when valid pairs are given, among them |
| `ParallelRun.ScheduledAll` | utils/parallel_runner.py:32-46 | Without valid pairs every cell is scheduled, in matrix order |
| `ParallelRun.Enumerate` | utils/parallel_runner.py:32-46 | The nested loops schedule the pairs model-major, app-minor, skipping those outside the valid list |
| `ParallelRun.TaskOutcomeShape` | utils/parallel_runner.py:107-139 | A raised task becomes a failure record with its message, status "❌ Failed: " and the message, and the traceback in the detail. Success leaves "✅ Done" and no detail. Any other result leaves "❌ Failed: " and its error value, which is also the detail: "Unknown error" when the key is missing, and "None" shown with no detail when it holds None |
| `ParallelRun.FailedCountedAsFailed` | utils/parallel_runner.py:107-115 | A failed task is counted as failed by the tracker summary unless its message itself holds a check mark |
| `ParallelRun.ApplyUpdates` | utils/parallel_runner.py:101-104 | The task's own `update_status` calls on its cell: the cell holds the last status, the last truthy detail and retry record, and its log gains their lines; other cells and the analysis log stay as they were |
| `ParallelRun.RunSingleTask` | utils/parallel_runner.py:87-139 | "🚀 Starting...", the task's own updates, then the final status. The cell ends with the final status; the final detail when truthy, else the task's last truthy one; the task's last retry record; its log extended by the task's lines and the final ERROR line. The analysis log is unchanged, a cell outside the matrix is untouched, and the result or failure record is returned without raising |
| `ParallelRun.FinishTask` | utils/parallel_runner.py:106-139 | The cell becomes "✅ Done", or "❌ Failed: " and the error with the error as detail; its log gains the ERROR line of a truthy detail; the retry record and analysis log are unchanged |
| `ParallelRun.DetailThroughFrom` | utils/progress_tracker.py:51-52 | After a run of updates a cell holds the last truthy detail among them, or its earlier detail when none is truthy |
| `ParallelRun.RetryThroughFrom` | utils/progress_tracker.py:57-58 | Likewise for the retry record |
| `ParallelRun.OwnErrorOutlivesSuccess` | utils/parallel_runner.py:106-108 | A task that records an error itself and then succeeds shows "✅ Done" and still holds that error |
| `ParallelRun.RecordsAt` | utils/parallel_runner.py:52-59 | Record k is the result of scheduled pair k |
| `ParallelRun.RunAll` | utils/parallel_runner.py:52-59 | One record per scheduled pair, in order; every cell's final status, error, retry record and log follow from the tasks run; the analysis log is unchanged |
| `ParallelRun.RunAgain` | utils/parallel_runner.py:52-59 | A pair scheduled a second time ends with the same error and retry record as after its first run |
| `ParallelRun.RunStep` | utils/parallel_runner.py:52-59 | Running one more task keeps the tables in step with the tasks run so far, whether or not the pair ran before |
| `ParallelRun.RunParallelTasks` | utils/parallel_runner.py:19-81 | The summary's results, total, successful (truthy `success`) and failed = total − successful; the tracker's final statuses, errors, retry records, logs (one run's lines per scheduling) and empty analysis logs; and its error list |
| `ParallelRun.RunErrorsExact` | utils/parallel_runner.py:65-66 | The run's error list names exactly the scheduled pairs whose cell ends with a truthy detail (the final one, else the task's own last one), with that detail and the final status |
| `ParallelRun.NewRecord` | utils/parallel_runner.py:174-185 | The appended record is 'failed' iff the data has a non-empty error, else 'success', for the task's id |
| `ParallelRun.KeptAsWritten` | utils/parallel_runner.py:171 | The filter as written removes exactly the bare id strings equal to the task id; every stored record, the task's own included, is kept |
| `ParallelRun.SavedTwiceAsWritten` | utils/parallel_runner.py:169-185 | As written, saving a task twice leaves two records for it |
| `ParallelRun.KeptMembers` | utils/parallel_runner.py:171 | The intended filter keeps exactly the old entries not about the task |
| `ParallelRun.CompletedOneRecord` | utils/parallel_runner.py:169-185 | After the intended update exactly one entry is about the task, last, and every other task's entry is kept |
| `ParallelRun.CompletedIdempotent` | utils/parallel_runner.py:169-185 | Saving the same data twice is saving it once |
| `ParallelRun.ProgressDir.SaveIncrementalProgress` | utils/parallel_runner.py:141-188 | With the removal filter of line 171 corrected (see Findings): the task's file holds its data, and the summary's entries about the task are replaced by its new record |
| `Storyboard.StepTextCases` | utils/storyboard_generator.py:503-530 | "Step n" past the trajectory; otherwise "n. Action: " and the action text, ending in the thought, or in "No thought" for an empty one |
| `Storyboard.ActionTextCases` | utils/storyboard_generator.py:510-523 | Click with a coordinate shows "Click(x,y)", without one "Click"; type shows at most 20 characters; scroll, terminate and others as listed; a missing type "unknown"; a one-element coordinate is the only error |
| `Storyboard.CropSize` | utils/storyboard_generator.py:282-291 | The crop size never exceeds the image size |
| `Storyboard.CropWindowProperties` | utils/storyboard_generator.py:272-306 | The window fits in the image; it is the centred one when there is no action or the action is inside it; an action inside the image is always inside the window |
| `Storyboard.SplitWordsShape` | utils/storyboard_generator.py:556 | No word from `split()` is empty or holds a space |
| `Storyboard.WrapText` | utils/storyboard_generator.py:554-581 | Lines join their words by spaces, all words are kept in order, every line of two or more words fits, and each line but the last was closed by the greedy rule |
| `Storyboard.WrapWords` | utils/storyboard_generator.py:560-581 | The word loop keeps the wrapping invariant and every word read |
| `Storyboard.TruncateToWidth` | utils/storyboard_generator.py:532-552 | A fitting text is kept; otherwise a prefix and "...", the longest that fits under a monotone width, or the first character and "..." when none fits |
| `CuaPrompts.DoubaoPromptShape` | agents/prompts/cua_prompts.py:5-32 | The prompt is a fixed header ending in "## User Instruction\n", then the instruction verbatim |
| `CuaPrompts.ActionSpaceVerbs` | agents/prompts/cua_prompts.py:14-24 | The Action Space lists nine entries, each opening with its verb, in order |
| `CuaPrompts.OperatorPromptFrame` | agents/prompts/cua_prompts.py:34-45 | The Operator prompt opens with "Complete this task: " and the task and ends with the fixed closing sentence |
| `CuaPrompts.OperatorPromptOrder` | agents/prompts/cua_prompts.py:36-45 | The warning, the history and "Current step: c/m" appear in that order without overlap |
| `TasksPrompts.Choice` | agents/prompts/tasks_prompts.py:39-125 | The dispatch position is a known tag's own index iff the tag is known |
| `TasksPrompts.TagTemplateChoice` | agents/prompts/tasks_prompts.py:34-138 | Each of game, tool, utility, interactive and landing selects its own block, any other tag the APP block |
| `TasksPrompts.FocusHeadingRoundTrip` | agents/prompts/tasks_prompts.py:40-125 | The heading of a focus block is read back from it |
| `TasksPrompts.HeadingNamesTag` | agents/prompts/tasks_prompts.py:39-138 | Two tag lists get blocks with the same heading iff they make the same choice |
| `TasksPrompts.NoTagsIsApp` | agents/prompts/tasks_prompts.py:35-36 | An empty tag list is treated as ["app"] |
| `TasksPrompts.FirstTagDecides` | agents/prompts/tasks_prompts.py:37 | Only the first tag matters, and its case does not |
| `TasksPrompts.BasePromptEnds` | agents/prompts/tasks_prompts.py:5-31 | The base prompt opens by asking for 30 tasks for the tag type and ends asking for exactly 30 with the primary tag's focus |
| `TasksPrompts.BasePromptOrder` | agents/prompts/tasks_prompts.py:7-24 | The title, the description and the tag content appear in that order |
| `CoderPrompts.V0PromptRoundTrip` | agents/prompts/coder_prompts.py:5-19 | The instruction sits verbatim between the header and the requirements and is read back from there |
| `CoderPrompts.AnalysisTextCases` | agents/prompts/coder_prompts.py:48 | A missing or empty analysis becomes "No visual UI analysis available"; a given one is stripped |
| `CoderPrompts.ContractSectionCases` | agents/prompts/coder_prompts.py:209 | Empty when ablated or absent, else the stripped contract |
| `CoderPrompts.LengthIgnoresSurroundingSpace` | agents/prompts/coder_prompts.py:34 | The reported length is that of the stripped website |
| `CoderPrompts.FailurePromptBlocks` | agents/prompts/coder_prompts.py:113-185 | The DOM-proxy block and the closing request end the prompt; the destylization block comes just before the DOM-proxy block iff it is asked for |
| `CoderPrompts.FailurePromptContext` | agents/prompts/coder_prompts.py:22-50 | The failure prompt shows the length line, the whole website, then the analysis section, in order |
| `CoderPrompts.BlockEndings` | agents/prompts/coder_prompts.py:111-184 | Whatever the fixed texts, the requirements end with ')' and the destylization block with a newline, so neither can pass for the other; the DOM-proxy block and the unsupported requirements end with the closing request |
| `CoderPrompts.FailureHeadEnds` | agents/prompts/coder_prompts.py:27-111 | The f-string part of the failure prompt is non-empty and ends with the ')' closing its last requirement |
| `CoderPrompts.UnsupportedPromptShape` | agents/prompts/coder_prompts.py:188-262 | The unsupported prompt opens with its introduction, carries the task count, the length, the website and the contract section in order, and ends with the request |
| `CoderPrompts.TaskCountOfBlocks` | agents/prompts/coder_prompts.py:197 | The task count is the number of "Task ID:" blocks in the summary when no id holds a 'T' |
| `RunKey.SlugShape` | utils/run_key.py:4-8 | An empty or missing directory slugs to "default"; otherwise the slug has the same length, no '/' and no ' ', and keeps every other character |
| `RunKey.SlugIdempotent` | utils/run_key.py:4-8 | Slugging a slug changes nothing |
| `RunKey.SlugCollisions` | utils/run_key.py:4-8 | "a/b" and "a_b" share a slug, and a directory named "default" shares the slug of a missing or empty one |
| `RunKey.RunKeyRoundTrip` | utils/run_key.py:11-16 | The key "rev-…__commenter-…__v0-…" parses back into its type, commenter and slug when neither holds '_' |
| `RunKey.ShortRunKey` | utils/run_key.py:19-20 | The short key is a prefix of the hex digest, of 8 characters when the digest has them |
| `RunKey.ShortRunKeyShape` | utils/run_key.py:19-20 | With a SHA-1 hex digest, the short key is 8 hex digits |
| `CachePaths.CommenterVariant` | utils/cache_paths.py:4-7 | No commenter maps to "none" |
| `CachePaths.CommenterVariantShape` | utils/cache_paths.py:4-15 | The three commenter classes map to storyboard, text-only and screenshot-only; any other class to its lower-cased name; no upper case in any variant |
| `CachePaths.VariantCollision` | utils/cache_paths.py:8-15 | A class named "Storyboard" shares the cache of `Commenter` |
| `CachePaths.Scope` | utils/cache_paths.py:19 | The scope is the directory when given, else "default"; it is never empty |
| `CachePaths.SegmentsArePlain` | utils/cache_paths.py:20 | Every segment a joined name adds is non-empty, not ".", and free of '/' |
| `CachePaths.FixedNamesJoin` | utils/cache_paths.py:20-25 | Joining "v0", "comments", "progress" or "stage3_v1" adds exactly that one segment |
| `CachePaths.CommentCacheDirPlain` | utils/cache_paths.py:18-20 | For plain scope, variant, model and app the comment cache is the base followed by v0, scope, comments, variant, model, app |
| `CachePaths.V1CacheDirPlain` | utils/cache_paths.py:23-25 | For plain parts the revision cache is the base followed by progress, stage3_v1, scope, variant, model, app |
| `CachePaths.CommentCacheDirInjective` | utils/cache_paths.py:18-20 | For plain parts: two comment caches are equal iff scope, variant, model and app are |
| `CachePaths.V1CacheDirInjective` | utils/cache_paths.py:23-25 | For plain parts: two revision caches are equal iff their parts are |
| `CachePaths.CachesApart` | utils/cache_paths.py:18-25 | When no scope or name starts with '/', comments and revised websites never share a directory under one base |
| `CachePaths.AbsoluteScopeMeetsRevisionCache` | utils/cache_paths.py:18-25 | An absolute scope "/x" discards the base: the comment cache under "/x" is the revision cache under "/x/comments" |
| `CachePaths.EmptyNameCollides` | utils/cache_paths.py:20 | An empty name vanishes: variant "" with model m and app a shares a cache with variant m, model a and app "" |
| `CachePaths.SlashNameCollides` | utils/cache_paths.py:20 | A '/' inside a name adds segments: model "o/x" with app "y" shares a cache with model "o" and app "x/y" |
| `CachePaths.ScopeMatchesSlug` | utils/cache_paths.py:19 | A missing and an empty directory share the "default" scope with the run-key slug (utils/run_key.py:4-8), and a directory without '/' or ' ' is its own slug |

## Left out

- asyncio concurrency is left out: semaphores, `_pool_lock`, `create_task`, `run_in_executor`, `wait_for` timeouts and the real sleeps. Tasks and pool operations run one after another, and sleeps are recorded as delays. As modelled, each parallel task writes only its own tracker cell, so order does not change the result.
- `ParallelRun.RunSingleTask`, `ParallelRun.RunAll`, `ParallelRun.RunParallelTasks` and `ParallelRun.RunErrorsExact`: a task's writes to the tracker are modelled only as `update_status` calls on its own cell. Its writes to other cells and its `add_timing_info` and `add_analysis_info` calls are not modelled, so the contracts do not cover them.
- `ParallelRun.RunSingleTask`: the clock is one timestamp parameter per run, while the source reads the time at each `update_status` call.
- `Progress.ProgressTracker.UpdateStatus`: one timestamp parameter stamps both the ERROR line and the RETRY lines of a call, while the source reads the clock separately for each (utils/progress_tracker.py:54,60).
- `ModelClient.CallGpt5`: two behaviours of the GPT-5 path are not modelled:
  - for a provider other than Azure, each attempt is a whole `call_model` with that call's own retries (utils/model_client.py:150-151), while the model counts it as one outcome;
  - every image is wrapped as `data:image/png;base64,` followed by the image, with no classification (utils/model_client.py:95-104). The model's routes carry the images as given.
- `ParallelRun.TaskOutcomeShape`: `success` is a boolean and `error` is absent, None or a string. Other truthy `success` values and non-string errors are not modelled.
- `CachePaths.CommentCacheDirInjective` and `CachePaths.V1CacheDirInjective`: injectivity is promised only for plain parts (non-empty, not ".", no '/'). Other parts can collide, as `CachePaths.EmptyNameCollides` and `CachePaths.SlashNameCollides` show.
- `CachePaths.CachesApart`: apartness is promised only when no scope or name starts with '/'. An absolute scope can make the two caches meet, as `CachePaths.AbsoluteScopeMeetsRevisionCache` shows.
- `CachePaths.Join`: paths are POSIX pure paths. Windows paths and the file system (symbolic links, `..` resolution) are not modelled.
- `Text.Strip`, `Text.Lower`, `Text.IsSpace` and `Text.AllDigits` follow Python on ASCII only: Unicode whitespace, non-ASCII case mapping and non-ASCII digits are not modelled. The members below inherit this.
- `BrowserControl.MapKeyName`, `BrowserControl.IsFunctionKey` and `BrowserControl.ScrollDelta`: case is ignored for ASCII letters only, and only ASCII digits count.
- `Storyboard.SplitWords`: words are split at ASCII whitespace only.
- `CoderPrompts.AnalysisText`, `CoderPrompts.LengthLine` and `CoderPrompts.ContractText`: stripping removes ASCII whitespace only.
- `VlmVerifier.ToBase64ForGpt5`: stripping removes ASCII whitespace only.
- `CachePaths.CommenterVariant`: lower-casing maps ASCII letters only.
- `Commenter.Substantial` and `Commenter.AnalyzeSingleFailure`: stripping removes ASCII whitespace only.
- `UiTarsCua.ExtractThoughtAction` and `UiTarsCua.IsMarked`: stripping removes ASCII whitespace only.
- `OperatorCua.ConvertAction`: the button name is lower-cased for ASCII letters only.
- `TasksPrompts.PrimaryTag`: lower-casing maps ASCII letters only.
- `CoderPrompts.CategoriesRepr`: Python's `str()` of a list is modelled only for names without quotes or backslashes, for which it single-quotes each name.
- The commenter's 5-slot start-up semaphore is not modelled, because it bounds nothing the pool state shows. It limits concurrent start-ups, not live browsers.
- Playwright session I/O is left out: starting, closing, navigation, screenshots, the injected state monitor and the page getters. The browser is an append-only event log of mouse and keyboard calls.
- The OpenAI and Azure SDK calls and the provider wrappers are left out. Each call is one entry of an outcome sequence.
- The YAML configuration file, `os.getenv` and image-file reads are parameters: a `ConfigFile` value, an `env` function and a `readBase64` function.
- SHA-1 (utils/run_key.py) and `json.loads` (agents/vlm_verifier.py) are function parameters.
- The UI-TARS action parser is a function parameter. utils/action_parser.py is not part of this model, and neither is its coordinate rescaling.
- agents/base_cua_policy.py is not part of this model. The step loop `execute_task` and `_convert_parsed_to_internal` are outside it, and only the reset the Operator policy makes before delegating is modelled.
- Floating-point layout is left out: `_calculate_optimal_grid`, annotation scaling, the circle radius, and the progress percentage and ETA.
- Terminal and PIL rendering are left out: the `_display_*` functions, `display_loop`, the `_draw_*` functions and the storyboard file handling.
- `_draw_formatted_action_text` is left out: its word splitting is drawing code.
- The judge and verifier prompt templates are left out; they are literal text with no branching.
- `factory.py`, `constants.py`, `logging_utils.py`, `commenter.py` and `commenter_screenshot_only.py` are not part of this model. They are dispatch, data, printing and file loading.
- The reasoning-text search in the Operator response is left out: it walks SDK objects the model does not see. A reply carries its reasoning text already extracted, and the returned thought is that text. The `reasoning_source` tag and the raw JSON dump are not modelled.
- `Storyboard.CropWindow`: the crop factor `int(width * 0.6)` is taken as the exact integer `width * 6 / 10`. Floating-point rounding at that product is not modelled.
- `Storyboard.TruncateToWidth`: the longest-prefix property needs a width that grows with the prefix. Such a width is an assumption in the contract, because the font's measure is a parameter.
- `Storyboard.WrapText`: a single word wider than the line is allowed on its own line, as the source allows. The contract promises fitting only for lines of two or more words.
- `RunKey.RunKeyRoundTrip`: the round trip holds only when the revision type and the commenter hold no '_'. Other values can make the key ambiguous.
- `CoderPrompts.TaskCountOfBlocks`: the count equals the number of blocks only when no id holds a 'T'. An id containing "Task ID:" would be counted again, as `str.count` does.
- `OperatorCua.HistoryText` and `UiTarsCua.HistoryText` require that a `left_click` coordinate is not a one-element list. In the source such a step raises `IndexError` while the prompt is built.
- `OperatorCua.ResultSuffixSuccessIff`, `UiTarsCua.EntryResult`, `Storyboard.ActionTextCases`, `UiTarsCua.EntryRendering` and `OperatorCua.HistoryText`: an absent key and a key holding None are both `None`, and the model applies the `get` default to both. Where the source's default applies only to an absent key, the source behaves differently for a None value:
  - a None error or name is shown as "None" (agents/operator_cua_policy.py:61,68, agents/cua_policy.py:64, utils/storyboard_generator.py:511);
  - a None scroll `pixels` raises `TypeError` at `pixels < 0` (agents/operator_cua_policy.py:55-56, agents/cua_policy.py:51-52), where the model reads it as 0 and renders "up".
- `ModelClient.Create`: a `models` value that is None or a list is not modelled; the source raises `AttributeError` at `.items()` (utils/model_client.py:33). Every model entry here has a `provider` string. An entry without one and without a key raises `KeyError` in the source (utils/model_client.py:47), and that error is not modelled.
- `VlmVerifier.ToBase64ForGpt5`: a path that cannot be read is not modelled. In the source, `open` raises before the retry loop starts; here `readBase64` always returns a string.
- Retry loops that the source never stops are modelled on a finite outcome sequence; the result `Pending` stands for "would call again":
  - the local `call_model`;
  - the UI-TARS action loop;
  - the Operator loop's empty replies.

## Findings

| source | as written | input that shows it | evidently intended | confidence | as-written member | corrected member |
|---|---|---|---|---|---|---|
| utils/parallel_runner.py:171 | The removal filter compares each stored summary record, a dictionary, with the task's id string; they are never equal, so no earlier record is ever removed | save a task with a non-empty error, e.g. "m_a" with "timeout", then save it again with no error: the summary holds both a 'failed' and a 'success' record for it | remove the earlier records of the task, leaving exactly one record per task | high (not executed) | `ParallelRun.SavedTwiceAsWritten` | `ParallelRun.CompletedOneRecord`, `ParallelRun.ProgressDir.SaveIncrementalProgress` |
