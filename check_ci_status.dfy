/**
 * Model of scripts/check_ci_status.py: one query of the latest workflow
 * runs of the current branch, dispatched on the HTTP status, on whether
 * any run came back and on the newest run's conclusion; a failed run
 * overwrites AGENT_FEEDBACK.md with a report. Every exception is caught
 * and printed.
 *
 * The API answer, the two `git` outputs and the clock are inputs.
 */
module CheckCiStatus {
  import opened Wrappers
  import opened Text
  import opened PyJson
  import opened Files
  import AutoCiFeedback

  /** The answer to the runs query: its status code and its body decoded as JSON (None when it is not JSON). */
  datatype ApiResponse = ApiResponse(statusCode: int, body: Option<Json>)

  /** The run values the report prints (each printed with `str`). */
  datatype RunFields = RunFields(workflow: Json, runUrl: Json, started: Json, checkUrl: Json)

  /** What the report shows about the repository and the checkout. */
  datatype ReportHeader = ReportHeader(repository: string, branch: string, commit: string, run: RunFields)

  /** How check_github_actions_status ends. */
  datatype CheckResult =
    | ApiFailed(statusCode: int)       // a status other than 200
    | NoRecentRuns                     // no run in the answer
    | FailureReported(header: ReportHeader) // AGENT_FEEDBACK.md rewritten
    | AllPassed
    | InProgress(status: string)       // any other conclusion; the printed status
    | Swallowed(error: PyError)        // an exception, printed and dropped

  /**
   * The run values with their defaults; the run URL defaults to "N/A" in
   * the header and to "GitHub Actions" in the action list.
   */
  function ReportFields(run: Json): RunFields
    requires run.JObj?
  {
    RunFields(
      Field(run, "name", JStr("Unknown")),
      Field(run, "html_url", JStr("N/A")),
      Field(run, "created_at", JStr("Unknown")),
      Field(run, "html_url", JStr("GitHub Actions")))
  }

  /**
   * `runs = body.get('workflow_runs', [])`, then `runs[0]` when `runs` is
   * truthy: None when there is no run, the run when it is a dict, the
   * exception otherwise (`.get` on a non-dict, indexing a dict or a
   * number).
   */
  function LatestRun(body: Json): (r: Result<Option<Json>, PyError>)
    ensures r.Success? && r.value.Some? ==> r.value.value.JObj?
  {
    if !body.JObj? then Failure(AttributeError)
    else
      var runs := Field(body, "workflow_runs", JArr([]));
      if !Truthy(runs) then Success(None)
      else match runs
        case JArr(items) => if items[0].JObj? then Success(Some(items[0])) else Failure(AttributeError)
        case JStr(_) => Failure(AttributeError)
        case JObj(_) => Failure(KeyError)
        case _ => Failure(TypeError)
  }

  /**
   * check_github_actions_status: `response` is None when the request
   * itself raised; `gitBranch` and `gitHead` are the raw outputs of the
   * two `git rev-parse` calls.
   */
  function Check(response: Option<ApiResponse>, gitBranch: string, gitHead: string): CheckResult
  {
    match response
    case None => Swallowed(OSError)
    case Some(answer) =>
      if answer.statusCode != 200 then ApiFailed(answer.statusCode)
      else if answer.body.None? then Swallowed(ValueError)
      else match LatestRun(answer.body.value)
        case Failure(e) => Swallowed(e)
        case Success(None) => NoRecentRuns
        case Success(Some(run)) =>
          var conclusion := Field(run, "conclusion", JNull);
          if conclusion == JStr("failure") then
            FailureReported(ReportHeader(AutoCiFeedback.Repository, Strip(gitBranch), Take(Strip(gitHead), 8), ReportFields(run)))
          else if conclusion == JStr("success") then AllPassed
          else InProgress(Str(Field(run, "status", JNull)))
  }

  /** The report generate_amp_feedback writes (fixed checklists abridged). */
  function CiFailureReport(timestamp: string, h: ReportHeader): string
  {
    "# 🚨 CI Failure Detected - Amp Please Fix\n\n"
    + "## GitHub Actions Failure Report - " + timestamp + "\n\n"
    + "**Repository**: " + h.repository + "\n"
    + "**Branch**: " + h.branch + "\n"
    + "**Commit**: " + h.commit + "\n"
    + "**Workflow**: " + Str(h.run.workflow) + "\n"
    + "**Run URL**: " + Str(h.run.runUrl) + "\n"
    + "**Started**: " + Str(h.run.started) + "\n\n"
    + "## 🎯 Action Required\n\n"
    + "The CI pipeline has failed. Please:\n\n"
    + "1. **Check the failing workflow** at: " + Str(h.run.checkUrl) + "\n"
  }

  /** The project after a check: only a reported failure writes. */
  function CheckDisk(d: Disk, result: CheckResult, timestamp: string, now: real): Disk
  {
    if result.FailureReported? then d.Write(FeedbackPath, Doc(CiFailureReport(timestamp, result.header)), now)
    else d
  }

  // ---------------------------------------------------------------------
  // properties

  /** A status other than 200 is reported as such and writes nothing. */
  lemma NonOkAnswerWritesNothing(d: Disk, answer: ApiResponse, gitBranch: string, gitHead: string,
                                 timestamp: string, now: real)
    requires answer.statusCode != 200
    ensures Check(Some(answer), gitBranch, gitHead) == ApiFailed(answer.statusCode)
    ensures CheckDisk(d, Check(Some(answer), gitBranch, gitHead), timestamp, now) == d
  {
  }

  /** A body without runs, or with an empty list of runs, ends the check with nothing written. */
  lemma NoRunsWritesNothing(members: seq<Member>, gitBranch: string, gitHead: string)
    requires var runs := Lookup(members, "workflow_runs"); runs.None? || runs == Some(JArr([]))
    ensures Check(Some(ApiResponse(200, Some(JObj(members)))), gitBranch, gitHead) == NoRecentRuns
  {
    assert !Truthy(Field(JObj(members), "workflow_runs", JArr([])));
    assert LatestRun(JObj(members)) == Success(None);
  }

  /**
   * Only the newest run is inspected: of the (up to five) runs requested,
   * two answers whose run lists start with the same run end the same way,
   * whatever the other runs are and whatever else the answers carry
   * (`total_count` and the like).
   */
  lemma OnlyLatestRunMatters(m1: seq<Member>, m2: seq<Member>, items1: seq<Json>, items2: seq<Json>,
                             gitBranch: string, gitHead: string)
    requires Lookup(m1, "workflow_runs") == Some(JArr(items1))
    requires Lookup(m2, "workflow_runs") == Some(JArr(items2))
    requires items1 != [] && items2 != [] && items1[0] == items2[0]
    ensures Check(Some(ApiResponse(200, Some(JObj(m1)))), gitBranch, gitHead)
         == Check(Some(ApiResponse(200, Some(JObj(m2)))), gitBranch, gitHead)
  {
    assert LatestRun(JObj(m1)) == LatestRun(JObj(m2));
  }

  /**
   * The check ends in a report exactly when the answer is a 200 whose
   * newest run is a dict with conclusion "failure"; it ends in
   * AllPassed exactly when that conclusion is "success"; any other
   * conclusion, a missing one included, is "in progress".
   */
  lemma ReportIffFailure(answer: ApiResponse, gitBranch: string, gitHead: string)
    ensures var r := Check(Some(answer), gitBranch, gitHead);
      var reached := answer.statusCode == 200 && answer.body.Some?
                     && LatestRun(answer.body.value).Success? && LatestRun(answer.body.value).value.Some?;
      var conclusion := if reached then Lookup(LatestRun(answer.body.value).value.value.members, "conclusion") else None;
      && (r.FailureReported? <==> reached && conclusion == Some(JStr("failure")))
      && (r.AllPassed? <==> reached && conclusion == Some(JStr("success")))
      && (r.InProgress? <==> reached && conclusion != Some(JStr("failure")) && conclusion != Some(JStr("success")))
  {
  }

  /**
   * A report names the stripped branch and the first min(n, 8) characters
   * of the n-character stripped HEAD hash.
   */
  lemma ReportedCheckout(response: Option<ApiResponse>, gitBranch: string, gitHead: string)
    requires Check(response, gitBranch, gitHead).FailureReported?
    ensures var h := Check(response, gitBranch, gitHead).header;
      && h.repository == AutoCiFeedback.Repository
      && h.branch == Strip(gitBranch)
      && |h.commit| == Min(|Strip(gitHead)|, 8)
      && h.commit == Strip(gitHead)[..|h.commit|]
  {
  }

  /**
   * Missing name and start time show as "Unknown"; a missing run URL
   * prints as "N/A" in the header and as "GitHub Actions" in the action
   * list; present values show as themselves.
   */
  lemma ReportDefaults(run: Json)
    requires run.JObj?
    ensures var f := ReportFields(run);
      var m := run.members;
      && (Lookup(m, "name").None? ==> Str(f.workflow) == "Unknown")
      && (Lookup(m, "created_at").None? ==> Str(f.started) == "Unknown")
      && (Lookup(m, "html_url").None? ==> Str(f.runUrl) == "N/A" && Str(f.checkUrl) == "GitHub Actions")
      && (Lookup(m, "name").Some? ==> f.workflow == Lookup(m, "name").value)
      && (Lookup(m, "created_at").Some? ==> f.started == Lookup(m, "created_at").value)
      && (Lookup(m, "html_url").Some? ==> f.runUrl == f.checkUrl == Lookup(m, "html_url").value)
  {
  }

  /**
   * Exceptions are swallowed: a request that raises, a body that is not
   * JSON or is shaped wrongly ends the check without writing.
   */
  lemma ErrorsAreSwallowed(d: Disk, answer: ApiResponse, gitBranch: string, gitHead: string, timestamp: string, now: real)
    requires answer.statusCode == 200
    requires answer.body.None? || LatestRun(answer.body.value).Failure?
    ensures Check(Some(answer), gitBranch, gitHead).Swallowed?
    ensures CheckDisk(d, Check(Some(answer), gitBranch, gitHead), timestamp, now) == d
    ensures Check(None, gitBranch, gitHead) == Swallowed(OSError)
  {
  }

  // ---------------------------------------------------------------------
  // the script, step by step

  /** generate_amp_feedback (lines 59-107): overwrite AGENT_FEEDBACK.md. */
  method GenerateAmpFeedback(fs: FileSystem, header: ReportHeader, timestamp: string, now: real)
    modifies fs
    ensures fs.State() == old(fs.State()).Write(FeedbackPath, Doc(CiFailureReport(timestamp, header)), now)
  {
    var feedback := CiFailureReport(timestamp, header);
    var _ := fs.Write(FeedbackPath, Doc(feedback), now);
  }

  /** check_github_actions_status (lines 13-57). */
  method CheckGithubActionsStatus(fs: FileSystem, response: Option<ApiResponse>, gitBranch: string, gitHead: string,
                                  timestamp: string, now: real)
    returns (result: CheckResult)
    modifies fs
    ensures result == Check(response, gitBranch, gitHead)
    ensures fs.State() == CheckDisk(old(fs.State()), result, timestamp, now)
  {
    var branch := Strip(gitBranch);
    var commit := Take(Strip(gitHead), 8);
    if response.None? {
      return Swallowed(OSError);
    }
    var answer := response.value;
    if answer.statusCode != 200 {
      return ApiFailed(answer.statusCode);
    }
    if answer.body.None? {
      return Swallowed(ValueError);
    }
    var latest := LatestRun(answer.body.value);
    if latest.Failure? {
      return Swallowed(latest.error);
    }
    if latest.value.None? {
      return NoRecentRuns;
    }
    var run := latest.value.value;
    var conclusion := Field(run, "conclusion", JNull);
    if conclusion == JStr("failure") {
      var header := ReportHeader(AutoCiFeedback.Repository, branch, commit, ReportFields(run));
      GenerateAmpFeedback(fs, header, timestamp, now);
      result := FailureReported(header);
    } else if conclusion == JStr("success") {
      result := AllPassed;
    } else {
      result := InProgress(Str(Field(run, "status", JNull)));
    }
  }
}
