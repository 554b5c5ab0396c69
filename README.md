# EventFlow CI feedback scripts, modelled in Dafny

The EventFlow repository has four Python scripts that turn GitHub Actions
failures into a Markdown report, `AGENT_FEEDBACK.md`, for a coding agent
to read. This project models those scripts and proves properties of them:

- `scripts/auto_ci_feedback.py` (module `AutoCiFeedback`):
  - collects the logs of a run's failed jobs, keeping the last 10000
    characters of each;
  - picks out the stripped lines that contain `Error:`, at most five per
    job and at most ten in the report;
  - renders the report and writes it when the run's conclusion is
    `failure`.
- `scripts/amp_webhook_integration.py` (module `AmpIntegration`, class
  `AmpCIIntegration`):
  - a poller that rewrites the report when it exists and is more than
    300 s old;
  - each time, it writes `.vscode/webhook_status.json` twice, and the
    second write wins;
  - it sleeps 30 s after a normal pass and 60 s after an error, and stops
    on an interrupt.
- `scripts/vscode_webhook_server.py` (module `WebhookServer`): an HTTP
  handler.
  - A POST whose payload is a JSON object writes the report and
    `.vscode/amp_notification.md`, then answers 200 with a fixed JSON body.
  - Any exception gives 500.
  - A GET answers a static page and writes nothing.
- `scripts/check_ci_status.py` (module `CheckCiStatus`): one query of the
  branch's latest runs.
  - It dispatches on the HTTP status, on an empty list of runs and on the
    newest run's conclusion.
  - A `failure` conclusion writes a report, with defaults for missing run
    fields.
  - Every exception is caught.

The shared modules are:

- `Wrappers`: `Option` and `Result`.
- `Text`: Python's `strip`, `split('\n')`, `in` and slicing on strings,
  with lemmas about splitting text that was built line by line.
- `PyJson`: decoded JSON values, with `dict.get`, `str()`, `[:n]` and
  truthiness as Python defines them, and Python exceptions as values.
- `Files`: the project directory, as a snapshot `Disk` and a `FileSystem`
  class that the scripts change in place. `open(p, 'w')` fails when the
  file's directory does not exist.

The following are inputs to the model:

- the network answers: the latest run, the jobs response, each job's log
  download, and the runs query;
- the `git` outputs;
- the clock, which is seconds as a `real`, plus the formatted timestamps.

Each state-changing method is proved against a function of the old state,
e.g. `fs.State() == CycleDisk(old(fs.State()), ...)`. The lemmas state what
the scripts promise about those functions.

Some behaviours of the code differ from what its names or comments
suggest. The model follows the code:

- `should_generate_feedback` returns false when `AGENT_FEEDBACK.md` does
  not exist (amp_webhook_integration.py:60-61). The comment at line 59
  ("old or doesn't exist") suggests that a missing report should trigger
  generation. As a result the poller never creates the report; it only
  refreshes one (`AmpIntegration.MonitorNeverCreatesReport`).
- Not every webhook field defaults to `"Unknown"`:
  - `status` defaults to `"failed"`;
  - `artifacts_url` defaults to `"Check GitHub Actions"`;
  - `message` defaults to `"CI tests failed"`.
- The webhook performs no structural validation of the payload.
- The success body is `json.dumps` output, which has a space after each `:`
  and `,`.
- In `get_ci_logs`, `job['id']` is read outside the inner `try`. A failed
  job without an id therefore makes the whole call return `[]`, while a
  failed log download only skips that job.
- The webhook handler does not create `.vscode`. When the directory is
  missing, the request answers 500 after `AGENT_FEEDBACK.md` has already
  been overwritten.

## Model

| member | source | states |
|---|---|---|
| AutoCiFeedback.CollectLogsAppend | scripts/auto_ci_feedback.py:50-66 | The loop over the jobs runs job after job: its result over `a + b` is the results over `a` and over `b` concatenated, and it raises when either part raises. |
| AutoCiFeedback.FailedDownloadIsSkipped | scripts/auto_ci_feedback.py:55-64 | When a failed job's log download raises, the job is skipped: the jobs after it are still fetched, and the result is as if the job were absent. |
| AutoCiFeedback.PassedJobIsSkipped | scripts/auto_ci_feedback.py:52 | A job whose conclusion is not `failure` contributes nothing. |
| AutoCiFeedback.FailedJobEntry | scripts/auto_ci_feedback.py:52-62 | A failed job with an id and a downloaded log gives exactly one entry. The entry holds the job's name, or `'Unknown'` when the name is missing, and the log's last min(n, 10000) characters. |
| AutoCiFeedback.JobLogsSound | scripts/auto_ci_feedback.py:52-62 | One job appends at most one entry, and only as a failed job whose log downloaded. |
| AutoCiFeedback.CollectedEntriesComeFromFailedJobs | scripts/auto_ci_feedback.py:51-62 | There are no more entries than jobs. Every entry comes from a failed job of the list, and its text is the tail of that job's downloaded log. |
| AutoCiFeedback.LoopAborts | scripts/auto_ci_feedback.py:51-70 | A job that raises outside the inner `try` (not a dict, or no id) ends the whole loop with an exception. |
| AutoCiFeedback.GetCiLogs | scripts/auto_ci_feedback.py:38-70 | The loop returns exactly the entries of the failed jobs in job order, or `[]` when anything raises outside the per-job `try`. |
| AutoCiFeedback.MatchingLines | scripts/auto_ci_feedback.py:84 | The comprehension yields at most one result per line, and each result contains `Error:` and is stripped. |
| AutoCiFeedback.MatchingLinesInOrder | scripts/auto_ci_feedback.py:84 | The selected messages are a subsequence of the stripped lines, so the log's line order is kept. |
| AutoCiFeedback.MatchingLinesComplete | scripts/auto_ci_feedback.py:84 | Every line containing `Error:` is selected. |
| AutoCiFeedback.ErrorLinesSpec | scripts/auto_ci_feedback.py:84 | A log's error lines are exactly its `Error:` lines, stripped, single-line and in log order, one message per such line: the messages are the stripped lines at the increasing list of all indices whose line contains `Error:`. |
| AutoCiFeedback.MatchingLinesPositions | scripts/auto_ci_feedback.py:84 | The comprehension keeps one stripped line for each line containing `Error:`, at that line's index, in increasing index order: a line repeated in the log is kept as often as it occurs. |
| AutoCiFeedback.RepeatedLineRepeatsMessage | scripts/auto_ci_feedback.py:84 | A log holding the same `Error:` line twice yields that message twice. |
| AutoCiFeedback.NoMarkerNoErrorLines | scripts/auto_ci_feedback.py:83-84 | A log without `Error:` yields no error line. |
| AutoCiFeedback.JobErrorsAreFirstFive | scripts/auto_ci_feedback.py:83-85 | A job contributes the first min(n, 5) of its n error lines, each containing `Error:`. |
| AutoCiFeedback.AllErrorsSpec | scripts/auto_ci_feedback.py:77-85 | There are at most 5 entries per log. Each entry carries one log's printed job name and one of that log's first five error lines. |
| AutoCiFeedback.CapFillsInArrivalOrder | scripts/auto_ci_feedback.py:104 | The cap of ten fills in job arrival order: earlier jobs' messages come first, and later jobs only fill the room left. |
| AutoCiFeedback.ExtractErrors | scripts/auto_ci_feedback.py:77-85 | The loop with `extend` computes exactly the per-job messages, concatenated in job order. |
| AutoCiFeedback.AppendErrorBullets | scripts/auto_ci_feedback.py:104-105 | The loop appends one `- **job**: error` line for each of the first min(n, 10) entries, in order. |
| AutoCiFeedback.DisplayedCommit | scripts/auto_ci_feedback.py:95 | The commit shown is the first min(n, 8) characters of `head_sha`. It is empty when the field is missing. Slicing raises exactly when the value is neither a string nor a list. |
| AutoCiFeedback.ReportListsFirstTenErrors | scripts/auto_ci_feedback.py:87-107 | Read line by line, the report is: the heading lines, then exactly one bullet line per shown entry (the first min(n, 10), in arrival order), then the closing text. |
| AutoCiFeedback.GenerateAutomatedFeedback | scripts/auto_ci_feedback.py:72-164 | Building the report step by step gives the report function's value, or its exception. |
| AutoCiFeedback.WritesOnlyOnFailure | scripts/auto_ci_feedback.py:171-197 | A report is written exactly when the run is a truthy dict whose conclusion is `failure`, which has an id and a sliceable or missing `head_sha`. `success` writes nothing. |
| AutoCiFeedback.RunAutomatedFeedback | scripts/auto_ci_feedback.py:166-197 | `main` overwrites `AGENT_FEEDBACK.md` with the report when a report is produced, and otherwise leaves the files unchanged. |
| AmpIntegration.GateBoundary | scripts/amp_webhook_integration.py:57-67 | A missing report never opens the gate. An existing report 299 s or 300 s old is not stale; one 301 s old is. |
| AmpIntegration.GateMonotone | scripts/amp_webhook_integration.py:64-67 | Once the gate is open, it stays open as time passes. |
| AmpIntegration.ClosedGateWritesNothing | scripts/amp_webhook_integration.py:38-55 | With the gate closed, or a failing `git` call (caught), a pass writes nothing. |
| AmpIntegration.ProcessedCycle | scripts/amp_webhook_integration.py:38-147 | An open gate rewrites the report with the stripped branch and the 8-character commit. The status file ends up holding the `failure_processed` record, which overwrites the live-status dict. `.vscode` exists afterwards, and no other file changes. |
| AmpIntegration.StatusRecordFields | scripts/amp_webhook_integration.py:139-147 | The last status record holds `status`, `timestamp` and `amp_ready: true`, and none of the four live-status keys (`webhook_active`, `last_check`, `feedback_available`, `amp_notified`), so it replaces the dict written just before. |
| AmpIntegration.LiveStatusFields | scripts/amp_webhook_integration.py:124-133 | The first status record holds three true flags and the report's timestamp. |
| AmpIntegration.ProcessedCycleClosesGate | scripts/amp_webhook_integration.py:50-67 | After a processed pass, the gate stays closed for the next 300 s. |
| AmpIntegration.MonitorSleepSchedule | scripts/amp_webhook_integration.py:27-36 | The loop sleeps after event i exactly when no interrupt occurs at or before i: 30 s after a normal pass and 60 s after an error, in order. So there is one sleep per event before the first interrupt, and none after it. |
| AmpIntegration.InterruptEndsLoop | scripts/amp_webhook_integration.py:31-33 | Nothing after an interrupt runs: no sleep and no write. |
| AmpIntegration.MonitorNeverCreatesReport | scripts/amp_webhook_integration.py:57-61 | If there is no report, the poller never creates one, however long it runs. |
| AmpIntegration.AmpCIIntegration.constructor | scripts/amp_webhook_integration.py:15-18 | A new poller has slept nothing. |
| AmpIntegration.AmpCIIntegration.ShouldGenerateFeedback | scripts/amp_webhook_integration.py:57-67 | True exactly when the report exists and now − mtime > 300. |
| AmpIntegration.AmpCIIntegration.GenerateAmpFeedback | scripts/amp_webhook_integration.py:69-135 | Writes the report, creates `.vscode`, then writes the live-status dict. |
| AmpIntegration.AmpCIIntegration.UpdateWebhookStatus | scripts/amp_webhook_integration.py:137-147 | Creates `.vscode` and overwrites the status file with the status record. |
| AmpIntegration.AmpCIIntegration.CheckAndProcessFailures | scripts/amp_webhook_integration.py:38-55 | One pass leaves the project as the pass function says. |
| AmpIntegration.AmpCIIntegration.StartMonitoring | scripts/amp_webhook_integration.py:20-36 | The sleeps taken and the files written are those of the event script up to the first interrupt. The method reports being stopped exactly when an interrupt occurred. |
| WebhookServer.WriteReports | scripts/vscode_webhook_server.py:93-108 | The report is always written. The notification is written, and the step succeeds, exactly when `.vscode` exists. Otherwise only the report has changed. |
| WebhookServer.PostStatus | scripts/vscode_webhook_server.py:16-40 | A POST is answered either 200 with the fixed JSON body or 500 with no body. It is answered 200 exactly when the length header parses, the body is a JSON object, its commit can be sliced, and `.vscode` exists. |
| WebhookServer.SuccessWritesBothFiles | scripts/vscode_webhook_server.py:26-108 | A 200 answer means both files hold the new texts, stamped now, and nothing else changed. |
| WebhookServer.EarlyFailureWritesNothing | scripts/vscode_webhook_server.py:19-66 | A bad length header, a body that is not JSON, a payload that is not an object, or an unsliceable commit gives 500 and writes nothing. |
| WebhookServer.LateFailureKeepsReport | scripts/vscode_webhook_server.py:93-108 | Without `.vscode`, the answer is 500, yet `AGENT_FEEDBACK.md` has already been overwritten. |
| WebhookServer.GetIsStaticProbe | scripts/vscode_webhook_server.py:42-54 | A GET answers 200 with the fixed HTML page and writes nothing, whatever the state. |
| WebhookServer.FieldDefaults | scripts/vscode_webhook_server.py:60-76 | Missing fields show as their defaults: `Unknown` for repository, branch, commit and workflow, `failed` for status, and `Check GitHub Actions` for artifacts_url. Present fields show the payload's value. |
| WebhookServer.CommitIsFirstEight | scripts/vscode_webhook_server.py:66 | The commit shown is the first min(n, 8) characters. A missing commit shows `Unknown` unchanged. A commit that is neither a string nor a list makes the request fail. |
| WebhookServer.NotificationMessage | scripts/vscode_webhook_server.py:100-108 | The notification carries the payload's message, or `CI tests failed` when there is none, and the timestamp. |
| WebhookServer.GenerateAgentFeedback | scripts/vscode_webhook_server.py:56-108 | The two writes leave the project, and give the result, that the generation function specifies. |
| WebhookServer.DoPost | scripts/vscode_webhook_server.py:16-40 | The response and the new project are those `PostOutcome` gives for every request body, so the properties proved about `PostOutcome` hold for the method. |
| WebhookServer.Handle | scripts/vscode_webhook_server.py:16-54 | Dispatches on the request method to the GET or POST behaviour. |
| CheckCiStatus.NonOkAnswerWritesNothing | scripts/check_ci_status.py:32-54 | A status other than 200 is reported as such and writes nothing. |
| CheckCiStatus.NoRunsWritesNothing | scripts/check_ci_status.py:33-37 | A missing or empty `workflow_runs` ends the check with "no recent runs". |
| CheckCiStatus.OnlyLatestRunMatters | scripts/check_ci_status.py:25-39 | Two answers whose `workflow_runs` lists start with the same run end the same way, whatever the other runs are and whatever other members (such as `total_count`) the answers carry. |
| CheckCiStatus.ReportIffFailure | scripts/check_ci_status.py:45-51 | The newest run reached with conclusion `failure` gives a report, and nothing else does. `success` gives "passed". Any other conclusion, including a missing one, gives "in progress". |
| CheckCiStatus.ReportedCheckout | scripts/check_ci_status.py:17-19 | A report names the repository, the stripped branch, and the first min(n, 8) characters of the stripped HEAD. |
| CheckCiStatus.ReportDefaults | scripts/check_ci_status.py:70-78 | A missing name or start time prints `Unknown`. A missing run URL prints `N/A` in the header and `GitHub Actions` in the action list. |
| CheckCiStatus.ErrorsAreSwallowed | scripts/check_ci_status.py:30-57 | A request that raises, a body that is not JSON, or a body of the wrong shape is caught, and nothing is written. |
| CheckCiStatus.GenerateAmpFeedback | scripts/check_ci_status.py:59-107 | Overwrites `AGENT_FEEDBACK.md` with the report. |
| CheckCiStatus.CheckGithubActionsStatus | scripts/check_ci_status.py:13-57 | The outcome is the dispatch function's value. Only a reported failure changes the files. |
| Files.FileSystem.Write | scripts/vscode_webhook_server.py:100-108 | `open(p, 'w')` succeeds exactly when the file's directory exists, and then replaces the file with the new contents, stamped now. |
| Files.FileSystem.MakeDirs | scripts/amp_webhook_integration.py:131 | `os.makedirs(..., exist_ok=True)` adds the directory and changes no file. |

## Left out

- Network I/O is not modelled: `urlopen`, `requests.get`, request headers,
  reading response bodies and UTF-8 decoding with `errors='ignore'`.
  - The runs query, the jobs response and each log download are inputs,
    already decoded; `None` stands for a request that raised.
  - The webhook's `Content-Length` header is an input already parsed, and
    so is the payload read with it. A length that cuts the body short
    appears only as a payload that is not JSON.
- `get_latest_ci_run` (auto_ci_feedback.py:15-36) is a network call whose
  exceptions all become `None`. Its result is the `latest` input of `main`.
- The `git` subprocess calls and `os.popen` are not modelled. Their outputs
  are inputs, and `None` stands for a `git` call that raised.
- Wall-clock formatting (`strftime`, `isoformat`, `time.time`) is not
  modelled. Timestamps are inputs, and times are seconds as `real`, so
  float rounding of `st_mtime` is not modelled.
- `time.sleep` does not wait: the durations are recorded in
  `AmpCIIntegration.sleeps`.
- AmpIntegration.AmpCIIntegration.StartMonitoring runs over a finite script
  of events, because `while True` has no end. A `Fault` event stands for an
  exception that escapes `check_and_process_failures`, which catches almost
  everything itself. An interrupt is modelled only between passes, not in
  the middle of a pass. An interrupt during the 30 s sleep is caught and ends
  the loop, as the model's `Interrupt` does. An interrupt during the 60 s
  sleep after an error (amp_webhook_integration.py:36) is not: that sleep
  runs inside the `except Exception` handler, so the interrupt escapes
  `start_monitoring` uncaught. That case is not modelled. A `Fault` writes
  nothing in the model. In the source, an exception can escape
  `check_and_process_failures` only from the `print` in its own handler
  (amp_webhook_integration.py:55). That handler can run after
  `generate_amp_feedback` has written both files (lines 120-133), so such a
  pass may have written them; since `print` is not modelled, neither is that
  failure.
- Console output (`print`) is not modelled. The printed outcome shows only
  as the result datatypes (`MainResult`, `CheckResult`).
- `main` in amp_webhook_integration.py:149-158 is not modelled: it uses
  `sys` without importing it, so it raises `NameError` at once.
- The HTTP server is not modelled: `HTTPServer`, `serve_forever`,
  `start_webhook_server`, `log_message`, the headers the library adds
  (Server, Date) and socket errors. A method other than GET or POST gets the
  library's 501, which is not modelled.
- The fixed Markdown text at the end of each report is left out. Each report
  is modelled from its first line through its last line that depends on
  data, with all the fixed text in between. The text after that line is
  left out: the checklists, command blocks and closing notes.
  - The webhook and check reports end with the numbered step that prints a
    URL.
  - The automated report ends with the line that follows the heading after
    its error list.
  - The poller's report ends with its `## 🎯 Amp Instructions` heading.
- `json.dump(..., indent=2)` text formatting is not modelled: a status file
  holds the JSON value itself.
- JSON numbers with a fraction or an exponent are not modelled: `json.loads`
  gives a Python `float` for `1.5`, but the model's `Json` holds integers
  only.
- `str()` of a list or dict quotes strings with single quotes and does not
  escape them, as Python's `repr` would.
- Atomicity and concurrency between the poller, the webhook server and the
  checker are not modelled. In the model each write replaces the whole file
  in one step. The source's `open(..., 'w')` empties the file first; a
  reader or a crash between that and the write, or between two writes, is
  not modelled.
- The only file-system failure modelled is a missing parent directory. Other
  failures, such as permissions or a full disk, are not modelled.
- AutoCiFeedback.ErrorEntry stores the job name as the report prints it
  (`str(job_name)`), not the raw JSON value. The rendered report is the same.
- `fastlane/scripts/take_screenshots.rb` and `docs/theme-switcher.js` are
  not part of this model: they are simulator shell commands and browser UI.
