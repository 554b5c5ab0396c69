/**
 * Model of scripts/amp_webhook_integration.py: a poller that, every 30
 * seconds, regenerates AGENT_FEEDBACK.md when that file exists and is more
 * than five minutes old, and records what it did in
 * .vscode/webhook_status.json.
 *
 * The `git` calls, the clock and the formatted timestamps are inputs; the
 * `while True` loop runs over a finite script of what each pass meets.
 */
module AmpIntegration {
  import opened Wrappers
  import opened Text
  import opened PyJson
  import opened Files

  /** The feedback file counts as stale once it is more than this many seconds old. */
  const StaleAfter: real := 300.0
  /** Seconds slept after a normal pass of the loop. */
  const PollInterval: int := 30
  /** Seconds slept after a pass that raised. */
  const ErrorBackoff: int := 60
  /** The status recorded once a failure has been processed. */
  const FailureProcessed := "failure_processed"

  /** What the two `git rev-parse` calls printed; None when the call fails. */
  datatype GitOutput = GitOutput(branch: Option<string>, head: Option<string>)

  /** The gate of should_generate_feedback: the report exists and is older than 300 s. */
  predicate GateOpen(d: Disk, now: real)
  {
    FeedbackPath in d.files && now - d.files[FeedbackPath].mtime > StaleAfter
  }

  /** The report generate_amp_feedback writes (the fixed instructions abridged). */
  function AmpFeedbackText(timestamp: string, branch: string, commit: string): string
  {
    "# 🤖 Amp: Live CI Monitoring Active\n\n"
    + "## VS Code Webhook Integration - " + timestamp + "\n\n"
    + "**Branch**: " + branch + "\n"
    + "**Commit**: " + commit + "\n"
    + AmpInstructions
  }

  const AmpInstructions := "**Monitoring**: Active via VS Code webhook server\n**Integration**: Amp-ready feedback system\n\n## 🎯 Amp Instructions\n"

  /** The status dict generate_amp_feedback dumps. */
  function LiveStatus(timestamp: string): Json
  {
    JObj([Member("webhook_active", JBool(true)), Member("last_check", JStr(timestamp)),
          Member("feedback_available", JBool(true)), Member("amp_notified", JBool(true))])
  }

  /** The status dict update_webhook_status dumps. */
  function StatusRecord(status: string, iso: string): Json
  {
    JObj([Member("status", JStr(status)), Member("timestamp", JStr(iso)), Member("amp_ready", JBool(true))])
  }

  /** The project after generate_amp_feedback: the report, then the directory, then the status file. */
  function GenerateDisk(d: Disk, branch: string, commit: string, timestamp: string, now: real): Disk
  {
    d.Write(FeedbackPath, Doc(AmpFeedbackText(timestamp, branch, commit)), now)
     .MakeDirs(VscodeDir)
     .Write(WebhookStatusPath, JsonDoc(LiveStatus(timestamp)), now)
  }

  /** The project after update_webhook_status. */
  function UpdateStatusDisk(d: Disk, status: string, iso: string, now: real): Disk
  {
    d.MakeDirs(VscodeDir).Write(WebhookStatusPath, JsonDoc(StatusRecord(status, iso)), now)
  }

  /**
   * The project after check_and_process_failures. Both `git` calls run
   * before the gate is consulted; a failing one is caught and nothing is
   * written.
   */
  function CycleDisk(d: Disk, git: GitOutput, now: real, timestamp: string, iso: string): Disk
  {
    if git.branch.None? || git.head.None? || !GateOpen(d, now) then d
    else
      var branch := Strip(git.branch.value);
      var commit := Take(Strip(git.head.value), 8);
      UpdateStatusDisk(GenerateDisk(d, branch, commit, timestamp, now), FailureProcessed, iso, now)
  }

  // ---------------------------------------------------------------------
  // the staleness gate

  /**
   * The gate is strict: a report exactly 300 s old is not stale, one
   * 301 s old is; a missing report never is, whatever the time.
   */
  lemma GateBoundary(d: Disk, now: real)
    ensures FeedbackPath !in d.files ==> !GateOpen(d, now)
    ensures FeedbackPath in d.files && now == d.files[FeedbackPath].mtime + 299.0 ==> !GateOpen(d, now)
    ensures FeedbackPath in d.files && now == d.files[FeedbackPath].mtime + 300.0 ==> !GateOpen(d, now)
    ensures FeedbackPath in d.files && now == d.files[FeedbackPath].mtime + 301.0 ==> GateOpen(d, now)
  {
  }

  /** Once open, the gate stays open as time passes, until the report is rewritten. */
  lemma GateMonotone(d: Disk, now: real, later: real)
    requires GateOpen(d, now) && now <= later
    ensures GateOpen(d, later)
  {
  }

  // ---------------------------------------------------------------------
  // one pass: check_and_process_failures

  /** A closed gate or a failing `git` call leaves every file as it was. */
  lemma ClosedGateWritesNothing(d: Disk, git: GitOutput, now: real, timestamp: string, iso: string)
    requires !GateOpen(d, now) || git.branch.None? || git.head.None?
    ensures CycleDisk(d, git, now, timestamp, iso) == d
  {
  }

  /**
   * An open gate rewrites the report and leaves the status file holding
   * the record update_webhook_status writes: it overwrites the dict
   * generate_amp_feedback wrote a moment before, whose keys are gone.
   * No other file changes, and .vscode exists afterwards.
   */
  lemma ProcessedCycle(d: Disk, git: GitOutput, now: real, timestamp: string, iso: string)
    requires GateOpen(d, now) && git.branch.Some? && git.head.Some?
    ensures var d' := CycleDisk(d, git, now, timestamp, iso);
      var commit := Take(Strip(git.head.value), 8);
      && d'.files == d.files[FeedbackPath := FileEntry(Doc(AmpFeedbackText(timestamp, Strip(git.branch.value), commit)), now)]
                            [WebhookStatusPath := FileEntry(JsonDoc(StatusRecord(FailureProcessed, iso)), now)]
      && d'.dirs == d.dirs + {VscodeDir}
  {
    var branch, commit := Strip(git.branch.value), Take(Strip(git.head.value), 8);
    assert CycleDisk(d, git, now, timestamp, iso)
        == UpdateStatusDisk(GenerateDisk(d, branch, commit, timestamp, now), FailureProcessed, iso, now);
    GenerateThenUpdate(d, branch, commit, timestamp, iso, now);
  }

  /** generate_amp_feedback followed by update_webhook_status, for any branch and commit. */
  lemma GenerateThenUpdate(d: Disk, branch: string, commit: string, timestamp: string, iso: string, now: real)
    ensures var d' := UpdateStatusDisk(GenerateDisk(d, branch, commit, timestamp, now), FailureProcessed, iso, now);
      && d'.files == d.files[FeedbackPath := FileEntry(Doc(AmpFeedbackText(timestamp, branch, commit)), now)]
                            [WebhookStatusPath := FileEntry(JsonDoc(StatusRecord(FailureProcessed, iso)), now)]
      && d'.dirs == d.dirs + {VscodeDir}
  {
    var report := Doc(AmpFeedbackText(timestamp, branch, commit));
    var live, record := JsonDoc(LiveStatus(timestamp)), JsonDoc(StatusRecord(FailureProcessed, iso));
    CycleWrites(d, report, live, record, now);
  }

  /** The writes of a processed pass, whatever the texts: the second status write wins. */
  lemma CycleWrites(d: Disk, report: Contents, live: Contents, record: Contents, now: real)
    ensures var d' := d.Write(FeedbackPath, report, now).MakeDirs(VscodeDir).Write(WebhookStatusPath, live, now)
                       .MakeDirs(VscodeDir).Write(WebhookStatusPath, record, now);
      && d'.files == d.files[FeedbackPath := FileEntry(report, now)][WebhookStatusPath := FileEntry(record, now)]
      && d'.dirs == d.dirs + {VscodeDir}
  {
    var d1 := d.Write(FeedbackPath, report, now).MakeDirs(VscodeDir);
    assert d1.files == d.files[FeedbackPath := FileEntry(report, now)];
    assert d1.CanWrite(WebhookStatusPath);
  }

  /** The status record left behind names the status and none of the live-status keys. */
  lemma StatusRecordFields(status: string, iso: string)
    ensures Lookup(StatusRecord(status, iso).members, "status") == Some(JStr(status))
    ensures Lookup(StatusRecord(status, iso).members, "timestamp") == Some(JStr(iso))
    ensures Lookup(StatusRecord(status, iso).members, "amp_ready") == Some(JBool(true))
    ensures Lookup(StatusRecord(status, iso).members, "webhook_active").None?
    ensures Lookup(StatusRecord(status, iso).members, "last_check").None?
    ensures Lookup(StatusRecord(status, iso).members, "feedback_available").None?
    ensures Lookup(StatusRecord(status, iso).members, "amp_notified").None?
  {
    var r := StatusRecord(status, iso).members;
    assert r[..2] == [r[0], r[1]];
    assert r[..2][..1] == [r[0]];
  }

  /** The record generate_amp_feedback writes: three flags set and the report's timestamp. */
  lemma LiveStatusFields(timestamp: string)
    ensures Lookup(LiveStatus(timestamp).members, "webhook_active") == Some(JBool(true))
    ensures Lookup(LiveStatus(timestamp).members, "last_check") == Some(JStr(timestamp))
    ensures Lookup(LiveStatus(timestamp).members, "feedback_available") == Some(JBool(true))
    ensures Lookup(LiveStatus(timestamp).members, "amp_notified") == Some(JBool(true))
  {
    var l := LiveStatus(timestamp).members;
    assert l[..3] == [l[0], l[1], l[2]];
    assert l[..3][..2] == [l[0], l[1]];
    assert l[..3][..2][..1] == [l[0]];
  }

  /** A pass that processed a failure closes the gate for the next 300 seconds. */
  lemma ProcessedCycleClosesGate(d: Disk, git: GitOutput, now: real, timestamp: string, iso: string, later: real)
    requires GateOpen(d, now) && git.branch.Some? && git.head.Some?
    requires later <= now + StaleAfter
    ensures !GateOpen(CycleDisk(d, git, now, timestamp, iso), later)
  {
    ProcessedCycle(d, git, now, timestamp, iso);
  }

  // ---------------------------------------------------------------------
  // the monitoring loop

  /**
   * What one pass of `while True` meets: a normal pass with its inputs, an
   * exception that escapes into the loop, or a KeyboardInterrupt.
   */
  datatype LoopEvent =
    | Pass(git: GitOutput, now: real, timestamp: string, iso: string)
    | Fault
    | Interrupt

  /** The sleeps start_monitoring performs over a script of events. */
  function MonitorSleeps(events: seq<LoopEvent>): seq<int>
  {
    if events == [] then []
    else match events[0]
      case Interrupt => []
      case Pass(_, _, _, _) => [PollInterval] + MonitorSleeps(events[1..])
      case Fault => [ErrorBackoff] + MonitorSleeps(events[1..])
  }

  /** The project after start_monitoring has met a script of events. */
  function MonitorDisk(d: Disk, events: seq<LoopEvent>): Disk
    decreases events
  {
    if events == [] then d
    else match events[0]
      case Interrupt => d
      case Pass(git, now, timestamp, iso) => MonitorDisk(CycleDisk(d, git, now, timestamp, iso), events[1..])
      case Fault => MonitorDisk(d, events[1..])
  }

  /** No interrupt occurs at or before event `i`: the loop reaches and finishes pass `i`. */
  predicate BeforeInterrupt(events: seq<LoopEvent>, i: nat)
    requires i < |events|
  {
    forall j :: 0 <= j <= i ==> !events[j].Interrupt?
  }

  /**
   * The loop sleeps once for each event before the first interrupt and
   * never after it: 30 s after a normal pass, 60 s after a fault, in order.
   */
  lemma {:induction false} MonitorSleepSchedule(events: seq<LoopEvent>)
    ensures |MonitorSleeps(events)| <= |events|
    ensures forall i :: 0 <= i < |events| ==> (i < |MonitorSleeps(events)| <==> BeforeInterrupt(events, i))
    ensures forall i :: 0 <= i < |MonitorSleeps(events)| ==>
              MonitorSleeps(events)[i] == (if events[i].Fault? then ErrorBackoff else PollInterval)
    ensures Interrupt !in events ==> |MonitorSleeps(events)| == |events|
  {
    if events != [] {
      if events[0].Interrupt? {
        forall i | 0 <= i < |events|
          ensures !BeforeInterrupt(events, i)
        {
          assert events[0].Interrupt?;
        }
      } else {
        MonitorSleepSchedule(events[1..]);
        var rest := MonitorSleeps(events[1..]);
        var s := MonitorSleeps(events);
        assert s == [if events[0].Fault? then ErrorBackoff else PollInterval] + rest;
        forall i | 0 <= i < |events|
          ensures i < |s| <==> BeforeInterrupt(events, i)
          ensures i < |s| ==> s[i] == (if events[i].Fault? then ErrorBackoff else PollInterval)
        {
          if i > 0 {
            BeforeInterruptStep(events, i);
            assert events[i] == events[1..][i - 1];
            if i < |s| {
              assert s[i] == rest[i - 1];
            }
          }
        }
        if Interrupt !in events {
          assert Interrupt !in events[1..];
        }
      }
    }
  }

  /** Pass `i > 0` is reached when the first event is not an interrupt and pass `i - 1` of the rest is. */
  lemma BeforeInterruptStep(events: seq<LoopEvent>, i: nat)
    requires 0 < i < |events|
    ensures BeforeInterrupt(events, i) <==> !events[0].Interrupt? && BeforeInterrupt(events[1..], i - 1)
  {
    if !events[0].Interrupt? && BeforeInterrupt(events[1..], i - 1) {
      forall j | 0 < j <= i
        ensures !events[j].Interrupt?
      {
        assert events[j] == events[1..][j - 1];
      }
    }
    if BeforeInterrupt(events, i) {
      forall j | 0 <= j <= i - 1
        ensures !events[1..][j].Interrupt?
      {
        assert events[1..][j] == events[j + 1];
      }
    }
  }

  /** Nothing after an interrupt runs: the loop has ended. */
  lemma {:induction false} InterruptEndsLoop(before: seq<LoopEvent>, after: seq<LoopEvent>, d: Disk)
    ensures MonitorSleeps(before + [Interrupt] + after) == MonitorSleeps(before + [Interrupt])
    ensures MonitorDisk(d, before + [Interrupt] + after) == MonitorDisk(d, before + [Interrupt])
  {
    if before == [] {
      assert (before + [Interrupt] + after)[0] == Interrupt;
      assert (before + [Interrupt])[0] == Interrupt;
    } else {
      assert (before + [Interrupt] + after)[1..] == before[1..] + [Interrupt] + after;
      assert (before + [Interrupt])[1..] == before[1..] + [Interrupt];
      match before[0]
      case Pass(git, now, timestamp, iso) =>
        InterruptEndsLoop(before[1..], after, CycleDisk(d, git, now, timestamp, iso));
      case _ =>
        InterruptEndsLoop(before[1..], after, d);
    }
  }

  /**
   * The poller only ever rewrites a report that already exists: if there
   * is no AGENT_FEEDBACK.md, it never creates one, however long it runs.
   */
  lemma {:induction false} MonitorNeverCreatesReport(d: Disk, events: seq<LoopEvent>)
    requires FeedbackPath !in d.files
    ensures FeedbackPath !in MonitorDisk(d, events).files
  {
    if events != [] {
      match events[0]
      case Pass(git, now, timestamp, iso) =>
        ClosedGateWritesNothing(d, git, now, timestamp, iso);
        MonitorNeverCreatesReport(d, events[1..]);
      case Fault =>
        MonitorNeverCreatesReport(d, events[1..]);
      case Interrupt =>
    }
  }

  /** The first event of a script: what it sleeps and writes, and where the first interrupt is. */
  lemma MonitorStep(script: seq<LoopEvent>, d: Disk)
    requires script != []
    ensures script[0].Interrupt? ==> MonitorSleeps(script) == [] && MonitorDisk(d, script) == d
    ensures script[0].Fault? ==> MonitorSleeps(script) == [ErrorBackoff] + MonitorSleeps(script[1..])
                                 && MonitorDisk(d, script) == MonitorDisk(d, script[1..])
    ensures script[0].Pass? ==>
              var e := script[0];
              && MonitorSleeps(script) == [PollInterval] + MonitorSleeps(script[1..])
              && MonitorDisk(d, script) == MonitorDisk(CycleDisk(d, e.git, e.now, e.timestamp, e.iso), script[1..])
    ensures Interrupt in script <==> script[0].Interrupt? || Interrupt in script[1..]
  {
    assert script == [script[0]] + script[1..];
  }

  /** The poller, holding the two paths it writes and the sleeps it has taken. */
  class AmpCIIntegration {
    const feedbackFile: Path := FeedbackPath
    const webhookStatusFile: Path := WebhookStatusPath
    /** The durations passed to `time.sleep`, in order. */
    var sleeps: seq<int>

    constructor ()
      ensures sleeps == []
    {
      sleeps := [];
    }

    /** should_generate_feedback (lines 57-67). */
    method ShouldGenerateFeedback(fs: FileSystem, now: real) returns (stale: bool)
      ensures stale == GateOpen(fs.State(), now)
      ensures stale <==> FeedbackPath in fs.files && now - fs.files[FeedbackPath].mtime > StaleAfter
    {
      if feedbackFile !in fs.files {
        return false;
      }
      var fileTime := fs.files[feedbackFile].mtime;
      var currentTime := now;
      stale := currentTime - fileTime > StaleAfter;
    }

    /** generate_amp_feedback (lines 69-135). */
    method GenerateAmpFeedback(fs: FileSystem, branch: string, commit: string, timestamp: string, now: real)
      modifies fs
      ensures fs.State() == GenerateDisk(old(fs.State()), branch, commit, timestamp, now)
    {
      var feedback := AmpFeedbackText(timestamp, branch, commit);
      var _ := fs.Write(feedbackFile, Doc(feedback), now);
      var status := LiveStatus(timestamp);
      fs.MakeDirs(webhookStatusFile.dir);
      var _ := fs.Write(webhookStatusFile, JsonDoc(status), now);
    }

    /** update_webhook_status (lines 137-147). */
    method UpdateWebhookStatus(fs: FileSystem, status: string, iso: string, now: real)
      modifies fs
      ensures fs.State() == UpdateStatusDisk(old(fs.State()), status, iso, now)
    {
      var statusData := StatusRecord(status, iso);
      fs.MakeDirs(webhookStatusFile.dir);
      var _ := fs.Write(webhookStatusFile, JsonDoc(statusData), now);
    }

    /** check_and_process_failures (lines 38-55). */
    method CheckAndProcessFailures(fs: FileSystem, git: GitOutput, now: real, timestamp: string, iso: string)
      modifies fs
      ensures fs.State() == CycleDisk(old(fs.State()), git, now, timestamp, iso)
    {
      if git.branch.None? || git.head.None? {
        return;
      }
      var branch := Strip(git.branch.value);
      var commit := Take(Strip(git.head.value), 8);
      var stale := ShouldGenerateFeedback(fs, now);
      if stale {
        GenerateAmpFeedback(fs, branch, commit, timestamp, now);
        UpdateWebhookStatus(fs, FailureProcessed, iso, now);
      }
    }

    /**
     * start_monitoring (lines 20-36), over a finite script of events;
     * `stopped` tells whether an interrupt ended the loop.
     */
    method StartMonitoring(fs: FileSystem, events: seq<LoopEvent>) returns (stopped: bool)
      modifies this, fs
      ensures sleeps == old(sleeps) + MonitorSleeps(events)
      ensures fs.State() == MonitorDisk(old(fs.State()), events)
      ensures stopped <==> Interrupt in events
    {
      var script := events;
      stopped := false;
      while script != []
        invariant old(sleeps) + MonitorSleeps(events) == sleeps + MonitorSleeps(script)
        invariant MonitorDisk(old(fs.State()), events) == MonitorDisk(fs.State(), script)
        invariant Interrupt in events <==> Interrupt in script
        decreases |script|
      {
        var event := script[0];
        MonitorStep(script, fs.State());
        match event {
          case Interrupt =>
            assert sleeps + [] == sleeps;
            return true;
          case Fault =>
            AppendAssoc(sleeps, [ErrorBackoff], MonitorSleeps(script[1..]), []);
            sleeps := sleeps + [ErrorBackoff];
          case Pass(git, now, timestamp, iso) =>
            CheckAndProcessFailures(fs, git, now, timestamp, iso);
            AppendAssoc(sleeps, [PollInterval], MonitorSleeps(script[1..]), []);
            sleeps := sleeps + [PollInterval];
        }
        script := script[1..];
      }
    }
  }
}
