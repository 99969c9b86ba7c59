/** The git side of the engine: the `git log` invocation, the revision-range
    diagnostic, and how the outcome of a run is classified in each mode. */
module GitLog {
  import opened Errors
  import opened GoText

  const RevisionRangeErrPrefix := "fatal: Invalid revision range"
  const FailedGitLogMsg := "failed executing git log command"
  const CouldNotFindDotGitMsg := "Could not find .git"

  /** The caller's settings for one log query; an empty `dotGitPath` means "search for it". */
  datatype GitLogDetails = GitLogDetails(logLimit: int, prettyFormat: string, dotGitPath: string)

  /** What one git run reports: (stdOut, errorOut, exitOk, err) in Go. */
  datatype RunResult = RunResult(stdout: string, errorOut: string, exitOk: bool, err: Option<Error>)

  // ---------------------------------------------------------------------------
  // The invocation

  /** The argv of `git log --pretty=<format> -<limit> [<revision>..]`. */
  function LogArgv(logCmd: LogCmd): seq<string> {
    ["git", "log", "--pretty=" + logCmd.prettyFormat, "-" + Itoa(logCmd.logLimit)]
      + (if logCmd.lastVcsRevision != "" then [logCmd.lastVcsRevision + ".."] else [])
  }

  datatype LogCmd = LogCmd(logLimit: int, lastVcsRevision: string, prettyFormat: string)
  {
    /** LogCmd.GetCmd: the argv, built by successive appends. */
    method GetCmd() returns (cmd: seq<string>)
      ensures cmd == LogArgv(this)
      ensures |cmd| == 5 <==> lastVcsRevision != ""
    {
      cmd := [];
      cmd := cmd + ["git"];
      cmd := cmd + ["log", "--pretty=" + prettyFormat, "-" + Itoa(logLimit)];
      if lastVcsRevision != "" {
        cmd := cmd + [lastVcsRevision + ".."];
      }
    }
  }

  /** Reads an argv back into the query it asks for; the inverse of LogArgv. */
  function ParseLogArgv(argv: seq<string>): Option<LogCmd> {
    if !(|argv| == 4 || |argv| == 5) || argv[0] != "git" || argv[1] != "log" then None
    else if !HasPrefix(argv[2], "--pretty=") || !HasPrefix(argv[3], "-") then None
    else match ParseDecimal(argv[3][1..])
      case None => None
      case Some(limit) =>
        var format := argv[2][|"--pretty="|..];
        if |argv| == 4 then Some(LogCmd(limit, "", format))
        else if |argv[4]| > 2 && argv[4][|argv[4]| - 2..] == ".." then
          Some(LogCmd(limit, argv[4][..|argv[4]| - 2], format))
        else None
  }

  /** The invocation determines the query: the format, the limit and the starting revision can all be
      read back, and an empty revision is exactly an invocation without the `<rev>..` argument. */
  lemma LogArgvRoundTrip(logCmd: LogCmd)
    ensures ParseLogArgv(LogArgv(logCmd)) == Some(logCmd)
    ensures |LogArgv(logCmd)| == 4 <==> logCmd.lastVcsRevision == ""
  {
    var argv := LogArgv(logCmd);
    ItoaRoundTrip(logCmd.logLimit);
    assert argv[3][1..] == Itoa(logCmd.logLimit);
    assert argv[2][|"--pretty="|..] == logCmd.prettyFormat;
    if logCmd.lastVcsRevision != "" {
      var last := argv[4];
      assert last == logCmd.lastVcsRevision + "..";
      assert last[..|last| - 2] == logCmd.lastVcsRevision;
    }
  }

  // ---------------------------------------------------------------------------
  // The revision-range failure

  const RevisionRangeMsgHead := "Revision: '"
  const RevisionRangeMsgTail := "' that was fetched from latest build info does not exist in the git revision range."

  /** The revision a revision-range message names, or "" when the text is not such a message. */
  function RevisionNamedIn(msg: string): string {
    if |msg| >= |RevisionRangeMsgHead| + |RevisionRangeMsgTail|
       && HasPrefix(msg, RevisionRangeMsgHead)
       && msg[|msg| - |RevisionRangeMsgTail|..] == RevisionRangeMsgTail
    then msg[|RevisionRangeMsgHead|..|msg| - |RevisionRangeMsgTail|]
    else ""
  }

  /** getRevisionRangeError: the distinguished error, naming the revision that git could not find. */
  function GetRevisionRangeError(lastVcsRevision: string): (e: Error)
    ensures e.RevisionRangeError? && AsRevisionRange(e)
    ensures RevisionNamedIn(e.errorMsg) == lastVcsRevision
  {
    var msg := RevisionRangeMsgHead + lastVcsRevision + RevisionRangeMsgTail;
    assert msg[|msg| - |RevisionRangeMsgTail|..] == RevisionRangeMsgTail;
    assert msg[|RevisionRangeMsgHead|..|msg| - |RevisionRangeMsgTail|] == lastVcsRevision;
    RevisionRangeError(msg)
  }

  // ---------------------------------------------------------------------------
  // The error-stream pattern `fatal: Invalid revision range [a-fA-F0-9]+\.\.`

  const RangeLineLead := RevisionRangeErrPrefix + " "

  predicate AllHex(s: string) {
    forall k :: 0 <= k < |s| ==> IsHexDigit(s[k])
  }

  /** The pattern matches `line[i..j + 2]`: the lead text, the hex digits `line[i + |lead|..j]`, then "..". */
  ghost predicate RangeMatchAt(line: string, i: nat, j: nat) {
    && i + |RangeLineLead| < j && j + 2 <= |line|
    && line[i..i + |RangeLineLead|] == RangeLineLead
    && AllHex(line[i + |RangeLineLead|..j])
    && line[j..j + 2] == ".."
  }

  /** The pattern occurs somewhere in `line` (the expression is unanchored). */
  ghost predicate MatchesRevisionRangeLine(line: string) {
    exists i: nat, j: nat :: RangeMatchAt(line, i, j)
  }

  /** The end of the longest run of hex digits in `line` that starts at `from`. */
  function HexRunEnd(line: string, from: nat): (e: nat)
    requires from <= |line|
    ensures from <= e <= |line|
    ensures forall k :: from <= k < e ==> IsHexDigit(line[k])
    ensures e < |line| ==> !IsHexDigit(line[e])
    decreases |line| - from
  {
    if from == |line| || !IsHexDigit(line[from]) then from else HexRunEnd(line, from + 1)
  }

  /** The pattern matches starting at index `i`. */
  predicate RangeDiagnosticAt(line: string, i: nat) {
    && StartsAt(line, i, RangeLineLead)
    && var j := HexRunEnd(line, i + |RangeLineLead|);
       j > i + |RangeLineLead| && StartsAt(line, j, "..")
  }

  /** The pattern matches at index `from` or later. */
  predicate ContainsRangeDiagnostic(line: string, from: nat)
    requires from <= |line|
    decreases |line| - from
  {
    RangeDiagnosticAt(line, from) || (from < |line| && ContainsRangeDiagnostic(line, from + 1))
  }

  lemma {:induction false} ContainsRangeDiagnosticSound(line: string, from: nat)
    requires from <= |line|
    requires ContainsRangeDiagnostic(line, from)
    ensures MatchesRevisionRangeLine(line)
    decreases |line| - from
  {
    if RangeDiagnosticAt(line, from) {
      var j := HexRunEnd(line, from + |RangeLineLead|);
      assert RangeMatchAt(line, from, j);
    } else {
      ContainsRangeDiagnosticSound(line, from + 1);
    }
  }

  lemma {:induction false} ContainsRangeDiagnosticComplete(line: string, from: nat, i: nat)
    requires from <= i <= |line|
    requires RangeDiagnosticAt(line, i)
    ensures ContainsRangeDiagnostic(line, from)
    decreases i - from
  {
    if from < i {
      ContainsRangeDiagnosticComplete(line, from + 1, i);
    }
  }

  /** A match found by the pattern is one the scanner finds at the same start. */
  lemma RangeMatchIsDiagnosticAt(line: string, i: nat, j: nat)
    requires RangeMatchAt(line, i, j)
    ensures RangeDiagnosticAt(line, i)
  {
    var start := i + |RangeLineLead|;
    forall k | start <= k < j ensures IsHexDigit(line[k]) {
      assert line[start..j][k - start] == line[k];
    }
    assert line[j] == line[j..j + 2][0] == '.';
    assert HexRunEnd(line, start) == j;
  }

  /** The scanning matcher accepts exactly the lines the pattern matches. */
  lemma RangeLineMatcherCorrect(line: string)
    ensures ContainsRangeDiagnostic(line, 0) <==> MatchesRevisionRangeLine(line)
  {
    if ContainsRangeDiagnostic(line, 0) {
      ContainsRangeDiagnosticSound(line, 0);
    }
    if MatchesRevisionRangeLine(line) {
      var i: nat, j: nat :| RangeMatchAt(line, i, j);
      RangeMatchIsDiagnosticAt(line, i, j);
      ContainsRangeDiagnosticComplete(line, 0, i);
    }
  }

  /** createErrRegExpHandler: for a line of the error stream, the error its handler reports. */
  function RevisionRangeLineHandler(lastVcsRevision: string, line: string): (r: Option<Error>)
    ensures r.Some? <==> MatchesRevisionRangeLine(line)
    ensures r.Some? ==> r.value == GetRevisionRangeError(lastVcsRevision)
  {
    RangeLineMatcherCorrect(line);
    if ContainsRangeDiagnostic(line, 0) then Some(GetRevisionRangeError(lastVcsRevision)) else None
  }

  // ---------------------------------------------------------------------------
  // Classifying the outcome of a run

  /** Raw mode (getPlainGitLogFromLastVcsRevision): the output verbatim on success; on failure the
      revision-range error when the trimmed error output starts with the diagnostic, the run's
      error otherwise. */
  function ClassifyPlainRun(lastVcsRevision: string, run: RunResult): (r: (string, Option<Error>))
    ensures r.1.None? <==> run.err.None?
    ensures r.1.None? ==> r.0 == run.stdout
    ensures r.1.Some? ==> r.0 == ""
    ensures run.err.Some? && HasPrefix(TrimSpace(run.errorOut), RevisionRangeErrPrefix) ==>
              && r.1 == Some(GetRevisionRangeError(lastVcsRevision))
              && AsRevisionRange(r.1.value) && RevisionNamedIn(r.1.value.errorMsg) == lastVcsRevision
    ensures run.err.Some? && !HasPrefix(TrimSpace(run.errorOut), RevisionRangeErrPrefix) ==> r.1 == run.err
  {
    if run.err.Some? then
      if HasPrefix(TrimSpace(run.errorOut), RevisionRangeErrPrefix) then ("", Some(GetRevisionRangeError(lastVcsRevision)))
      else ("", run.err)
    else (run.stdout, None)
  }

  /** Parsed mode (ParseGitLogFromLastVcsRevision): a revision-range error is swallowed, any other
      error is passed on, and a run that reports no error but did not exit cleanly is a failure. */
  function ClassifyParsedRun(run: RunResult): (r: Option<Error>)
    ensures r.None? <==> (run.err.Some? && AsRevisionRange(run.err.value)) || (run.err.None? && run.exitOk)
    ensures r.Some? && run.err.Some? ==> r == run.err
    ensures r.Some? && run.err.None? ==> r == Some(Failure(FailedGitLogMsg))
  {
    if run.err.Some? then
      if AsRevisionRange(run.err.value) then None else run.err
    else if !run.exitOk then Some(Failure(FailedGitLogMsg))
    else None
  }

  /** The diagnostic line `fatal: Invalid revision range <hex>..<rest>` matches the error-stream pattern. */
  lemma DiagnosticLineMatches(hex: string, rest: string)
    requires |hex| > 0 && AllHex(hex)
    ensures MatchesRevisionRangeLine(RangeLineLead + hex + ".." + rest)
  {
    var line := RangeLineLead + hex + ".." + rest;
    var j := |RangeLineLead| + |hex|;
    assert line[0..|RangeLineLead|] == RangeLineLead;
    assert line[|RangeLineLead|..j] == hex;
    assert line[j..j + 2] == "..";
    assert RangeMatchAt(line, 0, j);
  }

  /** An error stream that begins (after white space) with `fatal: Invalid revision range <hex>..`
      is a revision-range failure naming the recorded revision in both modes: the raw classifier
      reports it, the streaming handler fires on that line, and parsed mode then succeeds. */
  lemma RangeDiagnosticInBothModes(lastVcsRevision: string, ws: string, hex: string, rest: string, run: RunResult)
    requires forall k :: 0 <= k < |ws| ==> IsSpace(ws[k])
    requires |hex| > 0 && AllHex(hex)
    requires run.err.Some? && run.errorOut == ws + (RangeLineLead + hex + ".." + rest)
    ensures ClassifyPlainRun(lastVcsRevision, run) == ("", Some(GetRevisionRangeError(lastVcsRevision)))
    ensures RevisionRangeLineHandler(lastVcsRevision, RangeLineLead + hex + ".." + rest) == Some(GetRevisionRangeError(lastVcsRevision))
    ensures ClassifyParsedRun(run.(err := RevisionRangeLineHandler(lastVcsRevision, RangeLineLead + hex + ".." + rest))) == None
  {
    var line := RangeLineLead + hex + ".." + rest;
    assert HasPrefix(line, RevisionRangeErrPrefix) by {
      assert line[..|RevisionRangeErrPrefix|] == RangeLineLead[..|RevisionRangeErrPrefix|];
    }
    TrimSpaceKeepsPrefix(ws, line, RevisionRangeErrPrefix);
    DiagnosticLineMatches(hex, rest);
  }

  // ---------------------------------------------------------------------------
  // Locating the repository

  /** GetDotGit: the provided path when there is one, otherwise what the upward search found
      (`upstream` is FindUpstream's (path, exists, err)). */
  function GetDotGit(providedDotGitPath: string, upstream: Result<Option<string>>): (r: Result<string>)
    ensures providedDotGitPath != "" ==> r == Ok(providedDotGitPath)
    ensures r.Ok? ==> r.value == providedDotGitPath || (providedDotGitPath == "" && upstream == Ok(Some(r.value)))
    ensures providedDotGitPath == "" && upstream == Ok(None) ==> r == Err(Failure(CouldNotFindDotGitMsg))
    ensures providedDotGitPath == "" && upstream.Ok? && upstream.value.Some? ==> r == Ok(upstream.value.value)
    ensures providedDotGitPath == "" && upstream.Err? ==> r == Err(upstream.error)
  {
    if providedDotGitPath != "" then Ok(providedDotGitPath)
    else match upstream
      case Err(e) => Err(e)
      case Ok(None) => Err(Failure(CouldNotFindDotGitMsg))
      case Ok(Some(dotGitPath)) => Ok(dotGitPath)
  }
}
