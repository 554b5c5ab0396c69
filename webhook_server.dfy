/**
 * Model of scripts/vscode_webhook_server.py: an HTTP handler that, on a
 * POST carrying a JSON payload, writes AGENT_FEEDBACK.md and
 * .vscode/amp_notification.md and answers 200, answers 500 when anything
 * raises, and answers every GET with a static health page.
 *
 * The request is reduced to what the handler reads from it: the parsed
 * Content-Length header and the decoded payload. The clock is an input.
 */
module WebhookServer {
  import opened Wrappers
  import opened Text
  import opened PyJson
  import opened Files

  /** The requests the handler answers. */
  datatype Request =
    | Get
      /**
       * `contentLength` is None when the header is missing or not an
       * integer; `payload` is None when the body read is not valid UTF-8
       * JSON.
       */
    | Post(contentLength: Option<int>, payload: Option<Json>)

  /** Status line, Content-type header (None when not sent) and body. */
  datatype Response = Response(status: int, contentType: Option<string>, body: string)

  /** `json.dumps` of the success dict, with its default separators. */
  const SuccessBody := "{\"status\": \"success\", \"message\": \"Agent feedback generated\"}"

  const Ok := Response(200, Some("application/json"), SuccessBody)

  /** The except branch: status 500, no headers of its own, no body. */
  const ServerError := Response(500, None, "")

  const HealthPage := "\n        <html><body>\n        <h2>Amp Webhook Server Running</h2>\n        <p>EventFlow CI integration active!</p>\n        <p>Ready to receive GitHub Actions failure notifications.</p>\n        </body></html>\n        "

  /** The payload values the report prints (each printed with `str`). */
  datatype AgentFields = AgentFields(
    repository: Json, branch: Json, commit: Json,
    workflow: Json, status: Json, artifactsUrl: Json)

  /**
   * The values substituted into the report, with their defaults; the
   * commit is cut to eight characters, which raises when it cannot be
   * sliced.
   */
  function PayloadFields(payload: Json): Result<AgentFields, PyError>
    requires payload.JObj?
  {
    match SliceTo(Field(payload, "commit", JStr("Unknown")), 8)
    case Failure(e) => Failure(e)
    case Success(commit) =>
      Success(AgentFields(
        Field(payload, "repository", JStr("Unknown")),
        Field(payload, "branch", JStr("Unknown")),
        commit,
        Field(payload, "workflow", JStr("Unknown")),
        Field(payload, "status", JStr("failed")),
        Field(payload, "artifacts_url", JStr("Check GitHub Actions"))))
  }

  /** The report generate_agent_feedback writes, down to its last line that depends on the payload. */
  function AgentFeedbackText(timestamp: string, f: AgentFields): string
  {
    "# 🚨 Live CI Failure - Amp Action Required\n\n"
    + "## Webhook Notification - " + timestamp + "\n\n"
    + "**Repository**: " + Str(f.repository) + "\n"
    + "**Branch**: " + Str(f.branch) + "  \n"
    + "**Commit**: " + Str(f.commit) + "\n"
    + "**Workflow**: " + Str(f.workflow) + "\n"
    + "**Status**: " + Str(f.status) + "\n\n"
    + DetectionSection
    + "1. **Download GitHub Actions artifacts** from: " + Str(f.artifactsUrl) + "\n"
  }

  /** The fixed text between the status line and the first numbered action. */
  const DetectionSection := "## 🤖 Automated Detection\n\nThis failure was detected by GitHub Actions and automatically reported via webhook integration.\n\n## 🎯 Immediate Actions for Amp\n\n"

  /** The notification generate_agent_feedback writes under .vscode. */
  function NotificationText(payload: Json, timestamp: string): string
    requires payload.JObj?
  {
    "# 🚨 Amp: CI Failure Detected\n\n"
    + Str(Field(payload, "message", JStr("CI tests failed"))) + "\n\n"
    + "**Action Required**: Read AGENT_FEEDBACK.md and fix the failing tests.\n\n"
    + "Time: " + timestamp + "\n"
  }

  /** A response and the project it leaves behind. */
  datatype Handled = Handled(response: Response, disk: Disk)

  /**
   * The two writes: the report always lands in the project root, the
   * notification only when .vscode exists (the handler does not create it).
   */
  function WriteReports(d: Disk, report: string, note: string, now: real): (r: (Result<(), PyError>, Disk))
    ensures r.0.Success? <==> VscodeDir in d.dirs
    ensures r.1.dirs == d.dirs
    ensures r.0.Success? ==> r.1.files == d.files[FeedbackPath := FileEntry(Doc(report), now)][NotificationPath := FileEntry(Doc(note), now)]
    ensures r.0.Failure? ==> r.1.files == d.files[FeedbackPath := FileEntry(Doc(report), now)]
  {
    var d1 := d.Write(FeedbackPath, Doc(report), now);
    if !d1.CanWrite(NotificationPath) then (Failure(OSError), d1)
    else (Success(()), d1.Write(NotificationPath, Doc(note), now))
  }

  /** generate_agent_feedback: the project after it, or the exception and the project at that point. */
  function FeedbackEffect(d: Disk, payload: Json, timestamp: string, now: real): (Result<(), PyError>, Disk)
    requires payload.JObj?
  {
    match PayloadFields(payload)
    case Failure(e) => (Failure(e), d)
    case Success(f) => WriteReports(d, AgentFeedbackText(timestamp, f), NotificationText(payload, timestamp), now)
  }

  /** do_POST: 200 once both files are written, 500 when any step raises. */
  function PostOutcome(d: Disk, contentLength: Option<int>, payload: Option<Json>, timestamp: string, now: real): Handled
  {
    if contentLength.None? || payload.None? || !payload.value.JObj? then Handled(ServerError, d)
    else
      var (r, d') := FeedbackEffect(d, payload.value, timestamp, now);
      Handled(if r.Success? then Ok else ServerError, d')
  }

  /** The response to any request and the project after it. */
  function HandleOutcome(d: Disk, req: Request, timestamp: string, now: real): Handled
  {
    match req
    case Get => Handled(Response(200, Some("text/html"), HealthPage), d)
    case Post(cl, payload) => PostOutcome(d, cl, payload, timestamp, now)
  }

  // ---------------------------------------------------------------------
  // properties of the handler

  /**
   * A POST is answered 200 with the fixed JSON body exactly when the
   * length header parses, the body is a JSON object whose commit (if any)
   * can be sliced, and the .vscode directory exists; otherwise it is
   * answered 500 with no body.
   */
  lemma PostStatus(d: Disk, cl: Option<int>, payload: Option<Json>, timestamp: string, now: real)
    ensures var h := PostOutcome(d, cl, payload, timestamp, now);
      && (h.response == Ok || h.response == ServerError)
      && (h.response == Ok <==>
            && cl.Some? && payload.Some? && payload.value.JObj?
            && PayloadFields(payload.value).Success?
            && VscodeDir in d.dirs)
  {
  }

  /**
   * A 200 answer means both files hold the new texts, stamped now, and no
   * other file or directory changed.
   */
  lemma SuccessWritesBothFiles(d: Disk, cl: Option<int>, payload: Option<Json>, timestamp: string, now: real)
    requires PostOutcome(d, cl, payload, timestamp, now).response.status == 200
    ensures payload.Some? && payload.value.JObj? && PayloadFields(payload.value).Success?
    ensures var d' := PostOutcome(d, cl, payload, timestamp, now).disk;
      && d'.files == d.files[FeedbackPath := FileEntry(Doc(AgentFeedbackText(timestamp, PayloadFields(payload.value).value)), now)]
                            [NotificationPath := FileEntry(Doc(NotificationText(payload.value, timestamp)), now)]
      && d'.dirs == d.dirs
  {
    PostStatus(d, cl, payload, timestamp, now);
  }

  /**
   * A request that fails before the report is written leaves the project
   * as it was: a bad length header, a body that is not JSON, a payload
   * that is not an object, a commit that cannot be sliced.
   */
  lemma EarlyFailureWritesNothing(d: Disk, cl: Option<int>, payload: Option<Json>, timestamp: string, now: real)
    requires cl.None? || payload.None? || !payload.value.JObj? || PayloadFields(payload.value).Failure?
    ensures PostOutcome(d, cl, payload, timestamp, now) == Handled(ServerError, d)
  {
  }

  /**
   * Without a .vscode directory the notification cannot be opened: the
   * answer is 500, yet AGENT_FEEDBACK.md has already been overwritten.
   */
  lemma LateFailureKeepsReport(d: Disk, cl: Option<int>, payload: Option<Json>, timestamp: string, now: real)
    requires cl.Some? && payload.Some? && payload.value.JObj? && PayloadFields(payload.value).Success?
    requires VscodeDir !in d.dirs
    ensures var h := PostOutcome(d, cl, payload, timestamp, now);
      && h.response == ServerError
      && h.disk.files == d.files[FeedbackPath := FileEntry(Doc(AgentFeedbackText(timestamp, PayloadFields(payload.value).value)), now)]
      && h.disk.dirs == d.dirs
  {
    var report := AgentFeedbackText(timestamp, PayloadFields(payload.value).value);
    var note := NotificationText(payload.value, timestamp);
    assert FeedbackEffect(d, payload.value, timestamp, now) == WriteReports(d, report, note, now);
  }

  /** A GET is a static probe: the same page whatever the state, and nothing is written. */
  lemma GetIsStaticProbe(d: Disk, timestamp: string, now: real)
    ensures HandleOutcome(d, Get, timestamp, now).disk == d
    ensures HandleOutcome(d, Get, timestamp, now).response == Response(200, Some("text/html"), HealthPage)
  {
  }

  /**
   * Each missing field prints as its default; a present field is printed
   * as the payload's own value.
   */
  lemma FieldDefaults(payload: Json)
    requires payload.JObj? && PayloadFields(payload).Success?
    ensures var f := PayloadFields(payload).value;
      var m := payload.members;
      && (Lookup(m, "repository").None? ==> Str(f.repository) == "Unknown")
      && (Lookup(m, "branch").None? ==> Str(f.branch) == "Unknown")
      && (Lookup(m, "commit").None? ==> Str(f.commit) == "Unknown")
      && (Lookup(m, "workflow").None? ==> Str(f.workflow) == "Unknown")
      && (Lookup(m, "status").None? ==> Str(f.status) == "failed")
      && (Lookup(m, "artifacts_url").None? ==> Str(f.artifactsUrl) == "Check GitHub Actions")
      && (Lookup(m, "repository").Some? ==> f.repository == Lookup(m, "repository").value)
      && (Lookup(m, "branch").Some? ==> f.branch == Lookup(m, "branch").value)
      && (Lookup(m, "workflow").Some? ==> f.workflow == Lookup(m, "workflow").value)
      && (Lookup(m, "status").Some? ==> f.status == Lookup(m, "status").value)
      && (Lookup(m, "artifacts_url").Some? ==> f.artifactsUrl == Lookup(m, "artifacts_url").value)
  {
    assert Take("Unknown", 8) == "Unknown";
  }

  /**
   * The commit printed is the first min(n, 8) characters of an n-character
   * commit string, so the seven-letter default stays whole; a commit that
   * is neither a string nor a list makes the request fail.
   */
  lemma CommitIsFirstEight(payload: Json)
    requires payload.JObj?
    ensures var c := Lookup(payload.members, "commit");
      && (c.Some? && c.value.JStr? ==>
            && PayloadFields(payload).Success?
            && var shown := Str(PayloadFields(payload).value.commit);
            |shown| == Min(|c.value.s|, 8) && shown == c.value.s[..|shown|])
      && (c.None? ==> PayloadFields(payload).Success? && PayloadFields(payload).value.commit == JStr("Unknown"))
      && (c.Some? && !c.value.JStr? && !c.value.JArr? ==> PayloadFields(payload).Failure?)
  {
    assert Take("Unknown", 8) == "Unknown";
  }

  /** The notification carries the payload's message, or "CI tests failed" without one. */
  lemma NotificationMessage(payload: Json, timestamp: string)
    requires payload.JObj?
    ensures var msg := Lookup(payload.members, "message");
      var shown := if msg.Some? then Str(msg.value) else "CI tests failed";
      NotificationText(payload, timestamp)
        == "# 🚨 Amp: CI Failure Detected\n\n" + shown + "\n\n"
           + "**Action Required**: Read AGENT_FEEDBACK.md and fix the failing tests.\n\n"
           + "Time: " + timestamp + "\n"
  {
  }

  // ---------------------------------------------------------------------
  // the handler, step by step

  /** generate_agent_feedback (lines 56-108). */
  method GenerateAgentFeedback(fs: FileSystem, payload: Json, timestamp: string, now: real) returns (r: Result<(), PyError>)
    requires payload.JObj?
    modifies fs
    ensures (r, fs.State()) == FeedbackEffect(old(fs.State()), payload, timestamp, now)
  {
    var fields := PayloadFields(payload);
    if fields.Failure? {
      return Failure(fields.error);
    }
    var report := AgentFeedbackText(timestamp, fields.value);
    var note := NotificationText(payload, timestamp);
    var _ := fs.Write(FeedbackPath, Doc(report), now);
    var notified := fs.Write(NotificationPath, Doc(note), now);
    if !notified {
      return Failure(OSError);
    }
    r := Success(());
  }

  /** do_POST (lines 16-40). */
  method DoPost(fs: FileSystem, contentLength: Option<int>, payload: Option<Json>, timestamp: string, now: real)
    returns (response: Response)
    modifies fs
    ensures Handled(response, fs.State()) == PostOutcome(old(fs.State()), contentLength, payload, timestamp, now)
  {
    if contentLength.None? || payload.None? || !payload.value.JObj? {
      return ServerError;
    }
    var generated := GenerateAgentFeedback(fs, payload.value, timestamp, now);
    if generated.Failure? {
      return ServerError;
    }
    response := Ok;
  }

  /** do_GET (lines 42-54). */
  method DoGet() returns (response: Response)
    ensures response == Response(200, Some("text/html"), HealthPage)
  {
    response := Response(200, Some("text/html"), HealthPage);
  }

  /** One request, dispatched on its method. */
  method Handle(fs: FileSystem, req: Request, timestamp: string, now: real) returns (response: Response)
    modifies fs
    ensures Handled(response, fs.State()) == HandleOutcome(old(fs.State()), req, timestamp, now)
  {
    match req {
      case Get =>
        response := DoGet();
      case Post(cl, payload) =>
        response := DoPost(fs, cl, payload, timestamp, now);
    }
  }
}
