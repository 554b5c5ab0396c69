/**
 * Model of scripts/auto_ci_feedback.py: given the latest run of the
 * current branch, collect the logs of its failed jobs, pick out the lines
 * that mention "Error:", render a Markdown report and write it to
 * AGENT_FEEDBACK.md when the run failed.
 *
 * The GitHub API is not called: the latest run, the decoded jobs response
 * and the per-job log download are inputs.
 */
module AutoCiFeedback {
  import opened Wrappers
  import opened Text
  import opened PyJson
  import opened Files

  const Repository := "Josh-thephillipsequation/Eventflow"

  /** Only the last 10000 characters of a job's log are kept. */
  const LogTail: nat := 10000
  /** At most five messages are taken from one job's log. */
  const MaxErrorsPerJob: nat := 5
  /** At most ten messages appear in the report. */
  const MaxErrorsShown: nat := 10
  /** The marker a log line must contain to count as an error message. */
  const ErrorMarker := "Error:"

  /** One element of `all_logs`: a failed job's name and the tail of its log. */
  datatype LogEntry = LogEntry(jobName: Json, logs: string)

  /** One element of `errors`: the job name as the report prints it and one stripped log line. */
  datatype ErrorEntry = ErrorEntry(jobName: string, message: string)

  // =====================================================================
  // get_ci_logs

  /** `job.get('conclusion') == 'failure'` for a job that is a dict. */
  predicate IsFailedJob(job: Json)
    requires job.JObj?
  {
    Lookup(job.members, "conclusion") == Some(JStr("failure"))
  }

  /** `job.get('name', 'Unknown')`. */
  function JobName(job: Json): Json
    requires job.JObj?
  {
    Field(job, "name", JStr("Unknown"))
  }

  /**
   * One pass of the loop in get_ci_logs: the entries it appends, or the
   * exception that abandons the whole call. `job['id']` is read before
   * the inner `try`, so a failed job without an id aborts everything,
   * while a failed download (`fetch` gives None) only skips this job.
   */
  function JobLogs(job: Json, fetch: Json -> Option<string>): Result<seq<LogEntry>, PyError>
  {
    if !job.JObj? then Failure(AttributeError)
    else if !IsFailedJob(job) then Success([])
    else match Lookup(job.members, "id")
      case None => Failure(KeyError)
      case Some(id) =>
        match fetch(id)
        case None => Success([])
        case Some(text) => Success([LogEntry(JobName(job), TakeLast(text, LogTail))])
  }

  /** Both parts succeed and their entries are concatenated, or the whole fails. */
  function Concat(a: Option<seq<LogEntry>>, b: Option<seq<LogEntry>>): Option<seq<LogEntry>>
  {
    if a.Some? && b.Some? then Some(a.value + b.value) else None
  }

  /** The loop of get_ci_logs over `jobs`; None when it raises. */
  function CollectLogs(jobs: seq<Json>, fetch: Json -> Option<string>): Option<seq<LogEntry>>
  {
    if jobs == [] then Some([])
    else match JobLogs(jobs[0], fetch)
      case Failure(_) => None
      case Success(entries) => Concat(Some(entries), CollectLogs(jobs[1..], fetch))
  }

  /**
   * What get_ci_logs returns, given the decoded jobs response (None when
   * the request or the decoding raises): any exception yields [].
   * Iterating over a `jobs` value that is not a list either raises at once
   * or yields strings whose `.get` raises, so it also yields [].
   */
  function CiLogs(jobsResponse: Option<Json>, fetch: Json -> Option<string>): seq<LogEntry>
  {
    match jobsResponse
    case None => []
    case Some(data) =>
      if !data.JObj? then []
      else
        var jobs := Field(data, "jobs", JArr([]));
        if jobs.JArr? then CollectLogs(jobs.items, fetch).GetOr([]) else []
  }

  /** The loop of get_ci_logs runs job after job: its result splits at any point. */
  lemma {:induction false} CollectLogsAppend(a: seq<Json>, b: seq<Json>, fetch: Json -> Option<string>)
    ensures CollectLogs(a + b, fetch) == Concat(CollectLogs(a, fetch), CollectLogs(b, fetch))
  {
    if a == [] {
      assert a + b == b;
      if CollectLogs(b, fetch).Some? {
        assert [] + CollectLogs(b, fetch).value == CollectLogs(b, fetch).value;
      }
    } else {
      assert (a + b)[0] == a[0];
      assert (a + b)[1..] == a[1..] + b;
      CollectLogsAppend(a[1..], b, fetch);
      match JobLogs(a[0], fetch)
      case Failure(_) =>
      case Success(first) =>
        var x, y := CollectLogs(a[1..], fetch), CollectLogs(b, fetch);
        if x.Some? && y.Some? {
          assert first + (x.value + y.value) == (first + x.value) + y.value;
        }
    }
  }

  /**
   * A failed job whose log download fails is skipped: the jobs after it
   * are still fetched, and the result is as if it were not there.
   */
  lemma FailedDownloadIsSkipped(before: seq<Json>, job: Json, after: seq<Json>, fetch: Json -> Option<string>)
    requires job.JObj? && IsFailedJob(job)
    requires Lookup(job.members, "id").Some? && fetch(Lookup(job.members, "id").value).None?
    ensures CollectLogs(before + [job] + after, fetch) == CollectLogs(before + after, fetch)
  {
    SkippedJob(before, job, after, fetch);
  }

  /** A job that did not fail contributes nothing. */
  lemma PassedJobIsSkipped(before: seq<Json>, job: Json, after: seq<Json>, fetch: Json -> Option<string>)
    requires job.JObj? && !IsFailedJob(job)
    ensures CollectLogs(before + [job] + after, fetch) == CollectLogs(before + after, fetch)
  {
    SkippedJob(before, job, after, fetch);
  }

  /** A job that appends nothing can be dropped from the list. */
  lemma SkippedJob(before: seq<Json>, job: Json, after: seq<Json>, fetch: Json -> Option<string>)
    requires JobLogs(job, fetch) == Success([])
    ensures CollectLogs(before + [job] + after, fetch) == CollectLogs(before + after, fetch)
  {
    CollectLogsAppend(before + [job], after, fetch);
    CollectLogsAppend(before, [job], fetch);
    CollectLogsAppend(before, after, fetch);
    assert [job][1..] == [];
    assert CollectLogs([job], fetch) == Some([]) by {
      var none: seq<LogEntry> := [];
      assert none + none == none;
    }
    if CollectLogs(before, fetch).Some? {
      assert CollectLogs(before, fetch).value + [] == CollectLogs(before, fetch).value;
    }
  }

  /** A failed job with an id and a log; a missing name shows as 'Unknown'. */
  lemma FailedJobEntry(job: Json, fetch: Json -> Option<string>)
    requires job.JObj? && IsFailedJob(job)
    requires Lookup(job.members, "id").Some? && fetch(Lookup(job.members, "id").value).Some?
    ensures var text := fetch(Lookup(job.members, "id").value).value;
      var name := if Lookup(job.members, "name").Some? then Lookup(job.members, "name").value else JStr("Unknown");
      CollectLogs([job], fetch) == Some([LogEntry(name, TakeLast(text, LogTail))])
  {
    assert [job][1..] == [];
    var entries := JobLogs(job, fetch).value;
    assert entries + [] == entries;
  }

  /** `entry` is what a failed job `job` whose log downloaded as `text` appends. */
  predicate ProducedBy(entry: LogEntry, job: Json, fetch: Json -> Option<string>)
  {
    && job.JObj?
    && IsFailedJob(job)
    && Lookup(job.members, "id").Some?
    && fetch(Lookup(job.members, "id").value).Some?
    && entry.jobName == JobName(job)
    && entry.logs == TakeLast(fetch(Lookup(job.members, "id").value).value, LogTail)
  }

  /** `entry` is what one of the jobs of `jobs` appends. */
  predicate ComesFrom(entry: LogEntry, jobs: seq<Json>, fetch: Json -> Option<string>)
  {
    exists k :: 0 <= k < |jobs| && ProducedBy(entry, jobs[k], fetch)
  }

  /**
   * Every collected entry comes from a failed job of the list, and its
   * text is the downloaded log's suffix of length min(|log|, 10000).
   */
  lemma {:induction false} CollectedEntriesComeFromFailedJobs(jobs: seq<Json>, fetch: Json -> Option<string>)
    requires CollectLogs(jobs, fetch).Some?
    ensures var entries := CollectLogs(jobs, fetch).value;
      && |entries| <= |jobs|
      && forall i :: 0 <= i < |entries| ==> ComesFrom(entries[i], jobs, fetch)
  {
    if jobs != [] {
      var first := JobLogs(jobs[0], fetch).value;
      var rest := CollectLogs(jobs[1..], fetch).value;
      assert CollectLogs(jobs, fetch).value == first + rest;
      JobLogsSound(jobs[0], fetch);
      CollectedEntriesComeFromFailedJobs(jobs[1..], fetch);
      EntriesOfFirstAndLaterJobs(first, rest, jobs, fetch);
    }
  }

  /** Entries of the first job followed by entries of later jobs all come from `jobs`. */
  lemma EntriesOfFirstAndLaterJobs(first: seq<LogEntry>, rest: seq<LogEntry>, jobs: seq<Json>,
                                   fetch: Json -> Option<string>)
    requires jobs != []
    requires forall e :: e in first ==> ProducedBy(e, jobs[0], fetch)
    requires forall j :: 0 <= j < |rest| ==> ComesFrom(rest[j], jobs[1..], fetch)
    ensures forall i :: 0 <= i < |first + rest| ==> ComesFrom((first + rest)[i], jobs, fetch)
  {
    forall i | 0 <= i < |first + rest|
      ensures ComesFrom((first + rest)[i], jobs, fetch)
    {
      if i < |first| {
        assert (first + rest)[i] == first[i];
        assert first[i] in first;
        assert ProducedBy(first[i], jobs[0], fetch);
      } else {
        assert (first + rest)[i] == rest[i - |first|];
        LaterJobEntry(rest[i - |first|], jobs, fetch);
      }
    }
  }

  /** An entry one of the later jobs appends is one that `jobs` appends. */
  lemma LaterJobEntry(e: LogEntry, jobs: seq<Json>, fetch: Json -> Option<string>)
    requires jobs != [] && ComesFrom(e, jobs[1..], fetch)
    ensures ComesFrom(e, jobs, fetch)
  {
    var k :| 0 <= k < |jobs[1..]| && ProducedBy(e, jobs[1..][k], fetch);
    assert jobs[1..][k] == jobs[k + 1];
    assert ProducedBy(e, jobs[k + 1], fetch);
  }

  /** One job appends at most one entry, and only as a failed job whose log downloaded. */
  lemma JobLogsSound(job: Json, fetch: Json -> Option<string>)
    requires JobLogs(job, fetch).Success?
    ensures |JobLogs(job, fetch).value| <= 1
    ensures forall e :: e in JobLogs(job, fetch).value ==> ProducedBy(e, job, fetch)
  {
  }

  /** The loop over a single job appends what that job appends. */
  lemma CollectLogsSingle(job: Json, fetch: Json -> Option<string>)
    ensures CollectLogs([job], fetch) == match JobLogs(job, fetch)
      case Success(entries) => Some(entries)
      case Failure(_) => None
  {
    assert [job][1..] == [];
    if JobLogs(job, fetch).Success? {
      var entries := JobLogs(job, fetch).value;
      assert entries + [] == entries;
    }
  }

  /** One more job of the loop: its entries are appended to what came before. */
  lemma LoopStep(jobs: seq<Json>, i: nat, fetch: Json -> Option<string>)
    requires i < |jobs| && CollectLogs(jobs[..i], fetch).Some? && JobLogs(jobs[i], fetch).Success?
    ensures CollectLogs(jobs[..i + 1], fetch) == Some(CollectLogs(jobs[..i], fetch).value + JobLogs(jobs[i], fetch).value)
  {
    assert jobs[..i + 1] == jobs[..i] + [jobs[i]];
    CollectLogsAppend(jobs[..i], [jobs[i]], fetch);
    CollectLogsSingle(jobs[i], fetch);
  }

  /** A job that raises ends the whole loop with an exception. */
  lemma {:induction false} LoopAborts(jobs: seq<Json>, i: nat, fetch: Json -> Option<string>)
    requires i < |jobs| && JobLogs(jobs[i], fetch).Failure?
    ensures CollectLogs(jobs, fetch) == None
    decreases i
  {
    if i > 0 && JobLogs(jobs[0], fetch).Success? {
      assert jobs[1..][i - 1] == jobs[i];
      LoopAborts(jobs[1..], i - 1, fetch);
    }
  }

  /**
   * get_ci_logs (lines 38-70): walks the jobs in order, appending an entry
   * for each failed job whose log downloads; any other exception discards
   * what was collected and returns [].
   */
  method GetCiLogs(jobsResponse: Option<Json>, fetch: Json -> Option<string>) returns (allLogs: seq<LogEntry>)
    ensures allLogs == CiLogs(jobsResponse, fetch)
  {
    allLogs := [];
    if jobsResponse.None? || !jobsResponse.value.JObj? {
      return;
    }
    var jobsField := Field(jobsResponse.value, "jobs", JArr([]));
    if !jobsField.JArr? {
      return;
    }
    var jobs := jobsField.items;
    var i := 0;
    while i < |jobs|
      invariant 0 <= i <= |jobs|
      invariant CollectLogs(jobs[..i], fetch) == Some(allLogs)
    {
      var job := jobs[i];
      if !job.JObj? {
        LoopAborts(jobs, i, fetch);
        allLogs := [];
        return;
      }
      var appended: seq<LogEntry> := [];
      if IsFailedJob(job) {
        var id := Lookup(job.members, "id");
        if id.None? {
          LoopAborts(jobs, i, fetch);
          allLogs := [];
          return;
        }
        var logs := fetch(id.value);
        if logs.Some? {
          appended := [LogEntry(JobName(job), TakeLast(logs.value, LogTail))];
        }
      }
      assert JobLogs(job, fetch) == Success(appended);
      LoopStep(jobs, i, fetch);
      allLogs := allLogs + appended;
      i := i + 1;
    }
    assert jobs[..i] == jobs;
  }

  // =====================================================================
  // Error extraction (generate_automated_feedback, lines 77-85)

  /** `[line.strip() for line in lines if 'Error:' in line]`. */
  function MatchingLines(lines: seq<string>): (r: seq<string>)
    ensures |r| <= |lines|
    ensures forall m :: m in r ==> Contains(m, ErrorMarker) && IsStripped(m)
  {
    if lines == [] then []
    else if Contains(lines[0], ErrorMarker) then
      StripKeepsWord(lines[0], ErrorMarker);
      [Strip(lines[0])] + MatchingLines(lines[1..])
    else
      MatchingLines(lines[1..])
  }

  /** The stripped lines of a log that contain "Error:", in log order. */
  function ErrorLines(log: string): seq<string>
  {
    MatchingLines(Split(log, '\n'))
  }

  /** What one log contributes: the first five error lines, guarded by `'Error:' in log_content`. */
  function JobErrors(log: string): seq<string>
  {
    if Contains(log, ErrorMarker) then Take(ErrorLines(log), MaxErrorsPerJob) else []
  }

  /** Each line stripped, in order. */
  function StripAll(lines: seq<string>): (r: seq<string>)
    ensures |r| == |lines| && forall k :: 0 <= k < |lines| ==> r[k] == Strip(lines[k])
  {
    if lines == [] then [] else [Strip(lines[0])] + StripAll(lines[1..])
  }

  /** The selected lines keep the order of the log's lines. */
  lemma {:induction false} MatchingLinesInOrder(lines: seq<string>)
    ensures IsSubsequence(MatchingLines(lines), StripAll(lines))
  {
    if lines != [] {
      var rest := MatchingLines(lines[1..]);
      var all := StripAll(lines);
      assert IsSubsequence(rest, all[1..]) by {
        MatchingLinesInOrder(lines[1..]);
        assert all == [Strip(lines[0])] + StripAll(lines[1..]);
      }
      if Contains(lines[0], ErrorMarker) {
        assert MatchingLines(lines) == [all[0]] + rest;
        SubsequenceCons(all[0], rest, all);
      } else {
        assert MatchingLines(lines) == rest;
      }
    }
  }

  /** Every line that contains "Error:" is selected. */
  lemma {:induction false} MatchingLinesComplete(lines: seq<string>, k: nat)
    requires k < |lines| && Contains(lines[k], ErrorMarker)
    ensures Strip(lines[k]) in MatchingLines(lines)
  {
    if k > 0 {
      MatchingLinesComplete(lines[1..], k - 1);
    }
  }

  /** No selected line spans a line break. */
  lemma {:induction false} MatchingLinesSingleLine(lines: seq<string>)
    requires forall k :: 0 <= k < |lines| ==> '\n' !in lines[k]
    ensures forall m :: m in MatchingLines(lines) ==> '\n' !in m
  {
    if lines != [] {
      MatchingLinesSingleLine(lines[1..]);
    }
  }

  /** Lines without the marker give nothing. */
  lemma {:induction false} MatchingLinesNone(lines: seq<string>)
    requires forall k :: 0 <= k < |lines| ==> !Contains(lines[k], ErrorMarker)
    ensures MatchingLines(lines) == []
  {
    if lines != [] {
      MatchingLinesNone(lines[1..]);
    }
  }

  /**
   * `idx` lists, in increasing order, exactly the indices of the lines
   * that contain "Error:".
   */
  predicate MarkerPositions(lines: seq<string>, idx: seq<nat>)
  {
    && (forall j :: 0 <= j < |idx| ==> idx[j] < |lines| && Contains(lines[idx[j]], ErrorMarker))
    && (forall j, j' :: 0 <= j < j' < |idx| ==> idx[j] < idx[j'])
    && (forall k :: 0 <= k < |lines| && Contains(lines[k], ErrorMarker) ==> k in idx)
  }

  /**
   * The selected lines are the stripped lines at the marker positions, one
   * for each: a line repeated in the log is selected as often as it occurs.
   */
  lemma {:induction false} MatchingLinesPositions(lines: seq<string>) returns (idx: seq<nat>)
    ensures MarkerPositions(lines, idx)
    ensures |MatchingLines(lines)| == |idx|
    ensures forall j :: 0 <= j < |idx| ==> MatchingLines(lines)[j] == StripAll(lines)[idx[j]]
  {
    if lines == [] {
      idx := [];
    } else {
      var restIdx := MatchingLinesPositions(lines[1..]);
      var all := StripAll(lines);
      assert all == [Strip(lines[0])] + StripAll(lines[1..]);
      MatchingLinesStep(lines);
      idx := PositionsStep(lines, restIdx, MatchingLines(lines), MatchingLines(lines[1..]), all);
    }
  }

  /** MatchingLines over a first line and the rest. */
  lemma MatchingLinesStep(lines: seq<string>)
    requires lines != []
    ensures Contains(lines[0], ErrorMarker) ==> MatchingLines(lines) == [Strip(lines[0])] + MatchingLines(lines[1..])
    ensures !Contains(lines[0], ErrorMarker) ==> MatchingLines(lines) == MatchingLines(lines[1..])
  {
  }

  /**
   * From the positions in the lines after the first to the positions in
   * all the lines: `sel` is `rest` with the first line's stripped text in
   * front when that line holds the marker.
   */
  lemma PositionsStep(lines: seq<string>, restIdx: seq<nat>, sel: seq<string>, rest: seq<string>, all: seq<string>)
    returns (idx: seq<nat>)
    requires lines != [] && MarkerPositions(lines[1..], restIdx)
    requires |all| == |lines| && |rest| == |restIdx|
    requires forall j :: 0 <= j < |restIdx| ==> rest[j] == all[1..][restIdx[j]]
    requires Contains(lines[0], ErrorMarker) ==> sel == [all[0]] + rest
    requires !Contains(lines[0], ErrorMarker) ==> sel == rest
    ensures MarkerPositions(lines, idx) && |sel| == |idx|
    ensures forall j :: 0 <= j < |idx| ==> sel[j] == all[idx[j]]
  {
    var shifted := Shifted(restIdx);
    ShiftedPositions(lines, restIdx, shifted);
    ShiftSelected(all, rest, restIdx, shifted);
    if Contains(lines[0], ErrorMarker) {
      idx := [0] + shifted;
      PrependPosition(lines, shifted);
      PrependSelected(all, rest, shifted);
    } else {
      idx := shifted;
      SkipPosition(lines, shifted);
    }
  }

  /**
   * `shifted` holds, in increasing order, exactly the positions after the
   * first whose lines contain "Error:".
   */
  predicate LaterPositions(lines: seq<string>, shifted: seq<nat>)
  {
    && (forall j :: 0 <= j < |shifted| ==> 0 < shifted[j] < |lines| && Contains(lines[shifted[j]], ErrorMarker))
    && (forall j, j' :: 0 <= j < j' < |shifted| ==> shifted[j] < shifted[j'])
    && (forall k :: 0 < k < |lines| && Contains(lines[k], ErrorMarker) ==> k in shifted)
  }

  /** Each position moved up by one. */
  lemma Shifted(idx: seq<nat>) returns (shifted: seq<nat>)
    ensures |shifted| == |idx| && forall j :: 0 <= j < |idx| ==> shifted[j] == idx[j] + 1
  {
    shifted := seq(|idx|, j requires 0 <= j < |idx| => idx[j] + 1);
  }

  /** The positions in the lines after the first, moved up by one, are the later positions in all the lines. */
  lemma ShiftedPositions(lines: seq<string>, restIdx: seq<nat>, shifted: seq<nat>)
    requires lines != [] && MarkerPositions(lines[1..], restIdx)
    requires |shifted| == |restIdx| && forall j :: 0 <= j < |restIdx| ==> shifted[j] == restIdx[j] + 1
    ensures LaterPositions(lines, shifted)
  {
    forall j | 0 <= j < |shifted|
      ensures 0 < shifted[j] < |lines| && lines[1..][restIdx[j]] == lines[shifted[j]]
    {
    }
    forall k | 0 < k < |lines| && Contains(lines[k], ErrorMarker)
      ensures k in shifted
    {
      assert lines[1..][k - 1] == lines[k];
      var j :| 0 <= j < |restIdx| && restIdx[j] == k - 1;
      assert shifted[j] == k;
    }
  }

  /** A first line with the marker puts position 0 in front of the later ones. */
  lemma PrependPosition(lines: seq<string>, shifted: seq<nat>)
    requires lines != [] && Contains(lines[0], ErrorMarker) && LaterPositions(lines, shifted)
    ensures MarkerPositions(lines, [0] + shifted)
  {
    var idx := [0] + shifted;
    forall k | 0 <= k < |lines| && Contains(lines[k], ErrorMarker)
      ensures k in idx
    {
      if k > 0 {
        var j :| 0 <= j < |shifted| && shifted[j] == k;
        assert idx[j + 1] == k;
      }
    }
  }

  /** A first line without the marker leaves the later positions as all of them. */
  lemma SkipPosition(lines: seq<string>, shifted: seq<nat>)
    requires lines != [] && !Contains(lines[0], ErrorMarker) && LaterPositions(lines, shifted)
    ensures MarkerPositions(lines, shifted)
  {
  }

  /** Elements picked from `all[1..]` at `restIdx` are picked from `all` at the shifted positions. */
  lemma ShiftSelected<T>(all: seq<T>, rest: seq<T>, restIdx: seq<nat>, shifted: seq<nat>)
    requires all != [] && |rest| == |restIdx| == |shifted|
    requires forall j :: 0 <= j < |restIdx| ==> restIdx[j] < |all| - 1 && rest[j] == all[1..][restIdx[j]]
    requires forall j :: 0 <= j < |restIdx| ==> shifted[j] == restIdx[j] + 1
    ensures forall j :: 0 <= j < |shifted| ==> shifted[j] < |all| && rest[j] == all[shifted[j]]
  {
  }

  /** The first element in front of the elements picked at the later positions. */
  lemma PrependSelected<T>(all: seq<T>, rest: seq<T>, shifted: seq<nat>)
    requires all != []
    requires |rest| == |shifted| && forall j :: 0 <= j < |shifted| ==> shifted[j] < |all| && rest[j] == all[shifted[j]]
    ensures forall j :: 0 <= j < |[0] + shifted| ==> ([all[0]] + rest)[j] == all[([0] + shifted)[j]]
  {
    forall j | 0 <= j < |[0] + shifted|
      ensures ([all[0]] + rest)[j] == all[([0] + shifted)[j]]
    {
      if j > 0 {
        assert ([all[0]] + rest)[j] == rest[j - 1];
        assert ([0] + shifted)[j] == shifted[j - 1];
      }
    }
  }

  /**
   * Each extracted message is a stripped, single line of the log that
   * contains "Error:"; messages keep the log's line order; every log line
   * containing "Error:" is extracted; and there is exactly one message per
   * such line, taken from the lines in increasing order.
   */
  lemma ErrorLinesSpec(log: string)
    ensures forall m :: m in ErrorLines(log) ==> Contains(m, ErrorMarker) && IsStripped(m) && '\n' !in m
    ensures IsSubsequence(ErrorLines(log), StripAll(Split(log, '\n')))
    ensures forall k :: 0 <= k < |Split(log, '\n')| && Contains(Split(log, '\n')[k], ErrorMarker) ==>
              Strip(Split(log, '\n')[k]) in ErrorLines(log)
    ensures exists idx :: MarkerPositions(Split(log, '\n'), idx) && |ErrorLines(log)| == |idx|
              && forall j :: 0 <= j < |idx| ==> ErrorLines(log)[j] == StripAll(Split(log, '\n'))[idx[j]]
  {
    var lines := Split(log, '\n');
    SplitPiecesFree(log, '\n');
    MatchingLinesSingleLine(lines);
    MatchingLinesInOrder(lines);
    forall k | 0 <= k < |lines| && Contains(lines[k], ErrorMarker)
      ensures Strip(lines[k]) in ErrorLines(log)
    {
      MatchingLinesComplete(lines, k);
    }
    var idx := MatchingLinesPositions(lines);
  }

  /** A log that repeats an error line yields that message once for each occurrence. */
  lemma RepeatedLineRepeatsMessage(line: string)
    requires '\n' !in line && Contains(line, ErrorMarker)
    ensures ErrorLines(line + "\n" + line) == [Strip(line), Strip(line)]
  {
    TwoLines(line, line);
    MatchingTwoLines(line, line);
  }

  /** Two lines joined by a line break split back into those two lines. */
  lemma TwoLines(a: string, b: string)
    requires '\n' !in a && '\n' !in b
    ensures Split(a + "\n" + b, '\n') == [a, b]
  {
    assert a + "\n" + b == a + ['\n'] + b;
    SplitConcat(a, b, '\n');
    SplitNoSeparator(a, '\n');
    SplitNoSeparator(b, '\n');
  }

  /** Two lines that both contain "Error:" are both selected, in order. */
  lemma MatchingTwoLines(a: string, b: string)
    requires Contains(a, ErrorMarker) && Contains(b, ErrorMarker)
    ensures MatchingLines([a, b]) == [Strip(a), Strip(b)]
  {
    assert [a, b][1..] == [b];
    assert [b][1..] == [];
    assert MatchingLines([b]) == [Strip(b)] + MatchingLines([]);
  }

  /** A log with no "Error:" anywhere yields no error line, so the guard at line 83 changes nothing. */
  lemma NoMarkerNoErrorLines(log: string)
    requires !Contains(log, ErrorMarker)
    ensures ErrorLines(log) == []
  {
    var lines := Split(log, '\n');
    forall k | 0 <= k < |lines|
      ensures !Contains(lines[k], ErrorMarker)
    {
      if Contains(lines[k], ErrorMarker) {
        SplitPartContains(log, '\n', k, ErrorMarker);
      }
    }
    MatchingLinesNone(lines);
  }

  /**
   * A job contributes the first min(n, 5) of its n error lines, in order:
   * seven matching lines give five, a log without the marker gives none.
   */
  lemma JobErrorsAreFirstFive(log: string)
    ensures JobErrors(log) == Take(ErrorLines(log), MaxErrorsPerJob)
    ensures |JobErrors(log)| == Min(|ErrorLines(log)|, MaxErrorsPerJob)
    ensures forall m :: m in JobErrors(log) ==> Contains(m, ErrorMarker) && IsStripped(m) && '\n' !in m
  {
    if !Contains(log, ErrorMarker) {
      NoMarkerNoErrorLines(log);
    }
    ErrorLinesSpec(log);
  }

  /** The entries of one job's messages, tagged with its name. */
  function Tag(name: string, messages: seq<string>): seq<ErrorEntry>
  {
    seq(|messages|, i requires 0 <= i < |messages| => ErrorEntry(name, messages[i]))
  }

  /** What one element of `all_logs` adds to `errors`. */
  function LogErrors(l: LogEntry): seq<ErrorEntry>
  {
    Tag(Str(l.jobName), JobErrors(l.logs))
  }

  /** `errors` after the loop of lines 78-85: each job's messages, in job order. */
  function AllErrors(logs: seq<LogEntry>): seq<ErrorEntry>
  {
    FlatMap(LogErrors, logs)
  }

  /** `e` is one of the messages the log entry `l` contributes. */
  predicate FromLog(e: ErrorEntry, l: LogEntry)
  {
    e.jobName == Str(l.jobName) && e.message in JobErrors(l.logs)
  }

  /**
   * Every error entry carries the name of one of the logs and one of that
   * log's first five error lines; there are at most five per log.
   */
  lemma {:induction false} AllErrorsSpec(logs: seq<LogEntry>)
    ensures |AllErrors(logs)| <= MaxErrorsPerJob * |logs|
    ensures forall i :: 0 <= i < |AllErrors(logs)| ==>
              exists k :: 0 <= k < |logs| && FromLog(AllErrors(logs)[i], logs[k])
  {
    if logs != [] {
      var n := |logs| - 1;
      var init := logs[..n];
      AllErrorsSpec(init);
      JobErrorsAreFirstFive(logs[n].logs);
      var before := AllErrors(init);
      var last := LogErrors(logs[n]);
      assert AllErrors(logs) == before + last;
      forall i | 0 <= i < |before + last|
        ensures exists k :: 0 <= k < |logs| && FromLog((before + last)[i], logs[k])
      {
        if i < |before| {
          var k :| 0 <= k < |init| && FromLog(before[i], init[k]);
          assert init[k] == logs[k];
          assert FromLog((before + last)[i], logs[k]);
        } else {
          assert (before + last)[i] == last[i - |before|];
          assert FromLog((before + last)[i], logs[n]);
        }
      }
    }
  }

  /**
   * The report's cap of ten fills in job arrival order: the earlier jobs'
   * messages come first, the later ones only fill what room is left.
   */
  lemma CapFillsInArrivalOrder(a: seq<LogEntry>, b: seq<LogEntry>)
    requires |AllErrors(a)| <= MaxErrorsShown
    ensures Take(AllErrors(a + b), MaxErrorsShown) == AllErrors(a) + Take(AllErrors(b), MaxErrorsShown - |AllErrors(a)|)
  {
    var x, y := AllErrors(a), AllErrors(b);
    FlatMapAppend(LogErrors, a, b);
    assert AllErrors(a + b) == x + y;
    TakeAppend(x, y, MaxErrorsShown);
  }

  /** The loop of lines 77-85, which grows `errors` with `extend`. */
  method ExtractErrors(logs: seq<LogEntry>) returns (errors: seq<ErrorEntry>)
    ensures errors == AllErrors(logs)
  {
    errors := [];
    var i := 0;
    while i < |logs|
      invariant 0 <= i <= |logs|
      invariant errors == AllErrors(logs[..i])
    {
      var logContent := logs[i].logs;
      var jobName := Str(logs[i].jobName);
      assert logs[..i + 1][..i] == logs[..i];
      if Contains(logContent, ErrorMarker) {
        var errorLines := ErrorLines(logContent);
        errors := errors + Tag(jobName, Take(errorLines, MaxErrorsPerJob));
      } else {
        assert errors + Tag(jobName, []) == errors;
      }
      i := i + 1;
    }
    assert logs[..i] == logs;
  }

  // =====================================================================
  // Report rendering (generate_automated_feedback, lines 87-164)

  /** One line of the error list, `- **job**: error`, without its line break. */
  function Bullet(e: ErrorEntry): string
  {
    "- **" + e.jobName + "**: " + e.message
  }

  /** The bullets as separate lines. */
  function BulletLines(es: seq<ErrorEntry>): seq<string>
  {
    seq(|es|, i requires 0 <= i < |es| => Bullet(es[i]))
  }

  /** The error list: each entry's bullet followed by a line break. */
  function BulletList(es: seq<ErrorEntry>): string
  {
    Terminated(BulletLines(es), '\n')
  }

  /** Neither the job name nor the message holds a line break. */
  predicate SingleLine(e: ErrorEntry)
  {
    '\n' !in e.jobName && '\n' !in e.message
  }

  lemma BulletSingleLine(e: ErrorEntry)
    requires SingleLine(e)
    ensures '\n' !in Bullet(e)
  {
  }

  /** The loop of lines 104-105: appends the bullets of the first ten entries. */
  method AppendErrorBullets(feedback: string, errors: seq<ErrorEntry>) returns (out: string)
    ensures out == feedback + BulletList(Take(errors, MaxErrorsShown))
  {
    var shown := Take(errors, MaxErrorsShown);
    out := feedback;
    var i := 0;
    while i < |shown|
      invariant 0 <= i <= |shown|
      invariant out == feedback + BulletList(shown[..i])
    {
      var line := Bullet(shown[i]);
      assert BulletLines(shown[..i + 1]) == BulletLines(shown[..i]) + [line];
      TerminatedSnoc(BulletLines(shown[..i]), line, '\n');
      out := out + line + "\n";
      i := i + 1;
    }
    assert shown[..i] == shown;
  }

  /** `run_data.get('head_sha', '')[:8]` as it appears in the report. */
  function DisplayedCommit(run: Json): (r: Result<string, PyError>)
    requires run.JObj?
    ensures Lookup(run.members, "head_sha").None? ==> r == Success("")
    ensures Lookup(run.members, "head_sha").Some? && Lookup(run.members, "head_sha").value.JStr? ==>
              var sha := Lookup(run.members, "head_sha").value.s;
              r == Success(Take(sha, 8)) && |r.value| == Min(|sha|, 8) && r.value == sha[..|r.value|]
    ensures r.Failure? <==> (Lookup(run.members, "head_sha").Some? &&
              !(Lookup(run.members, "head_sha").value.JStr? || Lookup(run.members, "head_sha").value.JArr?))
  {
    match SliceTo(Field(run, "head_sha", JStr("")), 8)
    case Success(v) => Success(Str(v))
    case Failure(e) => Failure(e)
  }

  /** The report down to the "Key Errors Detected:" heading (without its line break). */
  function AutoReportHead(timestamp: string, run: Json, commit: string): string
    requires run.JObj?
  {
    "# 🤖 Automated CI Failure Report - " + timestamp + "\n\n"
    + "## GitHub Actions Analysis - Fully Automated\n\n"
    + "**Repository**: " + Repository + "\n"
    + "**Run ID**: " + Str(Field(run, "id", JNull)) + "\n"
    + "**Workflow**: " + Str(Field(run, "name", JNull)) + "\n"
    + "**Branch**: " + Str(Field(run, "head_branch", JNull)) + "\n"
    + "**Commit**: " + commit + "\n"
    + "**Status**: " + Str(Field(run, "conclusion", JNull)) + "\n"
    + "**Run URL**: " + Str(Field(run, "html_url", JNull)) + "\n\n"
    + "## 🔍 Automated Error Analysis\n\n"
    + "### Key Errors Detected:"
  }

  /** The fixed action plan, checklist and status section that close the report (abridged). */
  const AutoActionPlan := "\n\n## 🎯 Amp Action Plan\n\nBased on automated analysis of CI logs:\n"

  /** The report generate_automated_feedback returns, or the exception it raises. */
  function AutomatedFeedback(timestamp: string, run: Json, logs: seq<LogEntry>): Result<string, PyError>
  {
    if !run.JObj? then Failure(AttributeError)
    else match DisplayedCommit(run)
      case Failure(e) => Failure(e)
      case Success(commit) =>
        Success(Report(AutoReportHead(timestamp, run, commit), Take(AllErrors(logs), MaxErrorsShown)))
  }

  /** The whole report: the heading, one bullet per shown entry, the closing text. */
  function Report(head: string, shown: seq<ErrorEntry>): string
  {
    head + "\n" + BulletList(shown) + AutoActionPlan
  }

  /** Read line by line, the report is the heading's lines, the bullets, then the closing lines. */
  lemma ReportLines(head: string, shown: seq<ErrorEntry>)
    requires forall i :: 0 <= i < |shown| ==> '\n' !in BulletLines(shown)[i]
    ensures Split(Report(head, shown), '\n') == Split(head, '\n') + BulletLines(shown) + Split(AutoActionPlan, '\n')
  {
    SplitAround(head, BulletLines(shown), AutoActionPlan, '\n');
  }

  /**
   * Read line by line, the report has the heading lines, then exactly one
   * `- **job**: error` line for each of the first min(n, 10) of the n
   * extracted entries, in job arrival order, then the fixed closing text.
   */
  lemma ReportListsFirstTenErrors(timestamp: string, run: Json, logs: seq<LogEntry>)
    requires run.JObj? && DisplayedCommit(run).Success?
    requires forall k :: 0 <= k < |logs| ==> '\n' !in Str(logs[k].jobName)
    ensures AutomatedFeedback(timestamp, run, logs).Success?
    ensures Split(AutomatedFeedback(timestamp, run, logs).value, '\n')
         == Split(AutoReportHead(timestamp, run, DisplayedCommit(run).value), '\n')
            + BulletLines(Take(AllErrors(logs), MaxErrorsShown))
            + Split(AutoActionPlan, '\n')
  {
    ShownBulletsAreLines(logs);
    ReportLines(AutoReportHead(timestamp, run, DisplayedCommit(run).value), Take(AllErrors(logs), MaxErrorsShown));
  }

  /** When no job name spans lines, no bullet of the report does. */
  lemma ShownBulletsAreLines(logs: seq<LogEntry>)
    requires forall k :: 0 <= k < |logs| ==> '\n' !in Str(logs[k].jobName)
    ensures var lines := BulletLines(Take(AllErrors(logs), MaxErrorsShown));
      forall i :: 0 <= i < |lines| ==> '\n' !in lines[i]
  {
    var shown := Take(AllErrors(logs), MaxErrorsShown);
    AllErrorsSpec(logs);
    forall i | 0 <= i < |shown|
      ensures '\n' !in BulletLines(shown)[i]
    {
      var e := shown[i];
      assert e == AllErrors(logs)[i];
      var k :| 0 <= k < |logs| && FromLog(e, logs[k]);
      JobErrorsAreFirstFive(logs[k].logs);
      BulletSingleLine(e);
    }
  }

  /** generate_automated_feedback (lines 72-164), building the report step by step. */
  method GenerateAutomatedFeedback(timestamp: string, run: Json, logs: seq<LogEntry>) returns (r: Result<string, PyError>)
    ensures r == AutomatedFeedback(timestamp, run, logs)
  {
    var errors := ExtractErrors(logs);
    if !run.JObj? {
      return Failure(AttributeError);
    }
    var commit := DisplayedCommit(run);
    if commit.Failure? {
      return Failure(commit.error);
    }
    var feedback := AutoReportHead(timestamp, run, commit.value) + "\n";
    feedback := AppendErrorBullets(feedback, errors);
    feedback := feedback + AutoActionPlan;
    r := Success(feedback);
  }

  // =====================================================================
  // main (lines 166-197)

  /** How main ends. */
  datatype MainResult =
    | NoRunFound                        // no run, or a falsy one
    | Crashed(error: PyError)           // an uncaught exception ends the script
    | FeedbackWritten(feedback: string) // AGENT_FEEDBACK.md now holds `feedback`
    | CiPassed
    | CiInProgress

  /**
   * What main does, given what get_latest_ci_run returned (`latest`), the
   * decoded jobs response for that run and the log downloads.
   */
  function MainOutcome(latest: Option<Json>, jobsResponse: Option<Json>, fetch: Json -> Option<string>,
                       timestamp: string): MainResult
  {
    if latest.None? || !Truthy(latest.value) then NoRunFound
    else
      var run := latest.value;
      if !run.JObj? then Crashed(AttributeError)
      else if Field(run, "conclusion", JNull) == JStr("failure") then
        if Lookup(run.members, "id").None? then Crashed(KeyError)
        else match AutomatedFeedback(timestamp, run, CiLogs(jobsResponse, fetch))
          case Failure(e) => Crashed(e)
          case Success(f) => FeedbackWritten(f)
      else if Field(run, "conclusion", JNull) == JStr("success") then CiPassed
      else CiInProgress
  }

  /**
   * A report is written exactly when the latest run is a dict whose
   * conclusion is "failure", which has an id and a sliceable (or missing)
   * head_sha; a successful, in-progress or missing run writes nothing.
   */
  lemma WritesOnlyOnFailure(latest: Option<Json>, jobsResponse: Option<Json>, fetch: Json -> Option<string>,
                            timestamp: string)
    ensures MainOutcome(latest, jobsResponse, fetch, timestamp).FeedbackWritten? <==>
      && latest.Some? && latest.value.JObj? && latest.value.members != []
      && Lookup(latest.value.members, "conclusion") == Some(JStr("failure"))
      && Lookup(latest.value.members, "id").Some?
      && DisplayedCommit(latest.value).Success?
    ensures latest.Some? && latest.value.JObj? && Lookup(latest.value.members, "conclusion") == Some(JStr("success")) ==>
      MainOutcome(latest, jobsResponse, fetch, timestamp) == CiPassed
  {
  }

  /** main: dispatch on the run's conclusion and overwrite AGENT_FEEDBACK.md on failure. */
  method RunAutomatedFeedback(fs: FileSystem, latest: Option<Json>, jobsResponse: Option<Json>,
                              fetch: Json -> Option<string>, timestamp: string, now: real)
    returns (result: MainResult)
    modifies fs
    ensures result == MainOutcome(latest, jobsResponse, fetch, timestamp)
    ensures fs.State() == if result.FeedbackWritten? then old(fs.State()).Write(FeedbackPath, Doc(result.feedback), now)
                          else old(fs.State())
  {
    if latest.None? || !Truthy(latest.value) {
      return NoRunFound;
    }
    var runData := latest.value;
    if !runData.JObj? {
      return Crashed(AttributeError);
    }
    var conclusion := Field(runData, "conclusion", JNull);
    if conclusion == JStr("failure") {
      var id := Lookup(runData.members, "id");
      if id.None? {
        return Crashed(KeyError);
      }
      var logs := GetCiLogs(jobsResponse, fetch);
      var feedback := GenerateAutomatedFeedback(timestamp, runData, logs);
      if feedback.Failure? {
        return Crashed(feedback.error);
      }
      var _ := fs.Write(FeedbackPath, Doc(feedback.value), now);
      result := FeedbackWritten(feedback.value);
    } else if conclusion == JStr("success") {
      result := CiPassed;
    } else {
      result := CiInProgress;
    }
  }
}
