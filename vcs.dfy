/** The entry points of vcs.go: validating the repository, changing into it, running
    `git log` and restoring the working directory, in raw and in parsed mode. The
    process's working directory is the one piece of state the runners change; git
    itself, the repository search and the git configuration are inputs. */
module Vcs {
  import opened Errors
  import opened GitLog
  import BuildHistory

  const NoSuchDirectory := ": no such file or directory"
  const GetwdFailedMsg := "getwd: no such file or directory"

  /** A run of git: the directory it runs in and its argv decide what it reports. */
  type Git = (string, seq<string>) -> RunResult

  /** What prepareGitLogCommand's deferred cleanup holds: the directory to go back to and the
      error the preparation ended with (the closure reads `err` after the Chdir into `.git`). */
  datatype Cleanup = Cleanup(wd: string, preparedErr: Option<Error>)

  /** The collaborators validateGitAndGetVcsUrl consults: exec.LookPath("git"), FindUpstream(".git")
      as (path, exists) or an error, and the remote URL read from a repository's git config. */
  datatype Host = Host(lookPathGit: Option<Error>, findUpstreamDotGit: Result<Option<string>>, readRemoteUrl: string -> Result<string>)

  /** What validation yields: the VCS URL and the settings with `dotGitPath` filled in. */
  datatype Validated = Validated(vcsUrl: string, details: GitLogDetails)

  // ---------------------------------------------------------------------------
  // Validation

  /** validateGitAndGetVcsUrl: git must be on the PATH, the `.git` directory must be known or
      found, and its configuration must name a remote. */
  function ValidateGitAndGetVcsUrl(host: Host, details: GitLogDetails): (r: Result<Validated>)
    ensures host.lookPathGit.Some? ==> r == Err(host.lookPathGit.value)
    ensures r.Ok? ==>
              && host.lookPathGit.None?
              && GetDotGit(details.dotGitPath, host.findUpstreamDotGit) == Ok(r.value.details.dotGitPath)
              && r.value.details == details.(dotGitPath := r.value.details.dotGitPath)
              && host.readRemoteUrl(r.value.details.dotGitPath) == Ok(r.value.vcsUrl)
    ensures host.lookPathGit.None? && GetDotGit(details.dotGitPath, host.findUpstreamDotGit).Err? ==>
              r == Err(GetDotGit(details.dotGitPath, host.findUpstreamDotGit).error)
    ensures host.lookPathGit.None? && GetDotGit(details.dotGitPath, host.findUpstreamDotGit).Ok? ==>
              var dotGitPath := GetDotGit(details.dotGitPath, host.findUpstreamDotGit).value;
              && (host.readRemoteUrl(dotGitPath).Err? ==> r == Err(host.readRemoteUrl(dotGitPath).error))
              && (host.readRemoteUrl(dotGitPath).Ok? ==>
                    r == Ok(Validated(host.readRemoteUrl(dotGitPath).value, details.(dotGitPath := dotGitPath))))
  {
    if host.lookPathGit.Some? then Err(host.lookPathGit.value)
    else match GetDotGit(details.dotGitPath, host.findUpstreamDotGit)
      case Err(e) => Err(e)
      case Ok(dotGitPath) =>
        match host.readRemoteUrl(dotGitPath)
        case Err(e) => Err(e)
        case Ok(vcsUrl) => Ok(Validated(vcsUrl, details.(dotGitPath := dotGitPath)))
  }

  /** A provided `.git` path is used as given: the upward search is never consulted. */
  lemma ProvidedDotGitIsUsed(host: Host, details: GitLogDetails)
    requires host.lookPathGit.None? && details.dotGitPath != ""
    ensures ValidateGitAndGetVcsUrl(host, details).Ok?
            <==> host.readRemoteUrl(details.dotGitPath).Ok?
    ensures ValidateGitAndGetVcsUrl(host, details).Ok? ==>
              ValidateGitAndGetVcsUrl(host, details).value == Validated(host.readRemoteUrl(details.dotGitPath).value, details)
  {
    assert details.(dotGitPath := details.dotGitPath) == details;
  }

  // ---------------------------------------------------------------------------
  // The working directory

  /** The process, as far as the runners see it: its working directory, and the directories
      that exist (os.Getwd fails when the working directory is gone, os.Chdir when the target is). */
  class Process {
    var cwd: string
    const dirs: set<string>

    constructor(cwd: string, dirs: set<string>)
      ensures this.cwd == cwd && this.dirs == dirs
    {
      this.cwd := cwd;
      this.dirs := dirs;
    }

    /** The error os.Chdir(dir) reports. */
    function ChdirError(dir: string): (r: Option<Error>)
      ensures r.None? <==> dir in dirs
    {
      if dir in dirs then None else Some(Failure("chdir " + dir + NoSuchDirectory))
    }

    /** os.Getwd */
    method Getwd() returns (wd: string, err: Option<Error>)
      ensures err.None? <==> cwd in dirs
      ensures err.None? ==> wd == cwd
      ensures err.Some? ==> wd == "" && err == Some(Failure(GetwdFailedMsg))
    {
      if cwd in dirs {
        return cwd, None;
      }
      return "", Some(Failure(GetwdFailedMsg));
    }

    /** os.Chdir */
    method Chdir(dir: string) returns (err: Option<Error>)
      modifies this
      ensures err == ChdirError(dir)
      ensures cwd == if dir in dirs then dir else old(cwd)
    {
      if dir in dirs {
        cwd := dir;
      }
      err := ChdirError(dir);
    }

    /** prepareGitLogCommand: the command, then a move into the `.git` directory. When the working
        directory cannot be read there is no cleanup and nothing moves; otherwise the cleanup goes
        back there and carries the Chdir error, if any. */
    method PrepareGitLogCommand(details: GitLogDetails, lastVcsRevision: string)
      returns (logCmd: LogCmd, cleanup: Option<Cleanup>, err: Option<Error>)
      modifies this
      ensures logCmd == LogCmd(details.logLimit, lastVcsRevision, details.prettyFormat)
      ensures cleanup.None? <==> old(cwd) !in dirs
      ensures cleanup.None? ==> err == Some(Failure(GetwdFailedMsg)) && cwd == old(cwd)
      ensures cleanup.Some? ==> && err == ChdirError(details.dotGitPath)
                                && cleanup.value == Cleanup(old(cwd), err)
                                && cwd == RunDir(old(cwd), details.dotGitPath)
    {
      logCmd := LogCmd(details.logLimit, lastVcsRevision, details.prettyFormat);
      var wd, getwdErr := Getwd();
      if getwdErr.Some? {
        return logCmd, None, getwdErr;
      }
      err := Chdir(details.dotGitPath);
      // The closure is built before the Chdir but reads `err` when it runs, so it sees this error.
      cleanup := Some(Cleanup(wd, err));
    }

    /** The deferred cleanup: back to the saved directory, joining the preparation's error with
        that Chdir's. */
    method RunCleanup(c: Cleanup) returns (err: Option<Error>)
      modifies this
      ensures err == Join(c.preparedErr, ChdirError(c.wd))
      ensures cwd == if c.wd in dirs then c.wd else old(cwd)
    {
      var back := Chdir(c.wd);
      err := Join(c.preparedErr, back);
    }

    /** Where git runs when the runners start in `wd`: the `.git` directory if the preparation
        got there, `wd` itself otherwise. */
    function RunDir(wd: string, dotGitPath: string): string {
      if wd in dirs && dotGitPath in dirs then dotGitPath else wd
    }

    /** The error a runner returns after the deferred cleanup, when the run itself gave `e`. */
    function AfterCleanup(wd: string, dotGitPath: string, e: Option<Error>): Option<Error> {
      if wd in dirs then Join(e, Join(ChdirError(dotGitPath), ChdirError(wd))) else e
    }

    /** The run a runner performs for `lastVcsRevision` when started in `wd`. */
    function LogRun(wd: string, details: GitLogDetails, lastVcsRevision: string, git: Git): RunResult {
      git(RunDir(wd, details.dotGitPath), LogArgv(LogCmd(details.logLimit, lastVcsRevision, details.prettyFormat)))
    }

    /** getPlainGitLogFromLastVcsRevision, started in `wd`: (gitLog, err). */
    function PlainLogOutcome(wd: string, details: GitLogDetails, lastVcsRevision: string, git: Git): (string, Option<Error>) {
      var classified := ClassifyPlainRun(lastVcsRevision, LogRun(wd, details, lastVcsRevision, git));
      (classified.0, AfterCleanup(wd, details.dotGitPath, classified.1))
    }

    /** ParseGitLogFromLastVcsRevision, started in `wd`: err. */
    function ParsedLogOutcome(wd: string, details: GitLogDetails, lastVcsRevision: string, git: Git): Option<Error> {
      AfterCleanup(wd, details.dotGitPath, ClassifyParsedRun(LogRun(wd, details, lastVcsRevision, git)))
    }

    /** getPlainGitLogFromLastVcsRevision: runs git from the `.git` directory and returns its output
        as is, or the revision-range error, or the run's error; the working directory is restored. */
    method GetPlainGitLogFromLastVcsRevision(details: GitLogDetails, lastVcsRevision: string, git: Git)
      returns (gitLog: string, err: Option<Error>)
      modifies this
      ensures cwd == old(cwd)
      ensures (gitLog, err) == PlainLogOutcome(old(cwd), details, lastVcsRevision, git)
    {
      var logCmd, cleanup, prepareErr := PrepareGitLogCommand(details, lastVcsRevision);
      // prepareErr is overwritten by the run's error before anything reads it.
      var argv := logCmd.GetCmd();
      var run := git(cwd, argv);
      var classified := ClassifyPlainRun(lastVcsRevision, run);
      gitLog, err := classified.0, classified.1;
      if cleanup.Some? {
        var cleanupErr := RunCleanup(cleanup.value);
        err := Join(err, cleanupErr);
      }
    }

    /** ParseGitLogFromLastVcsRevision: runs git from the `.git` directory with the line parsers;
        a revision-range error is success, a run that did not exit cleanly is a failure; the
        working directory is restored. */
    method ParseGitLogFromLastVcsRevision(details: GitLogDetails, lastVcsRevision: string, git: Git)
      returns (err: Option<Error>)
      modifies this
      ensures cwd == old(cwd)
      ensures err == ParsedLogOutcome(old(cwd), details, lastVcsRevision, git)
    {
      var logCmd, cleanup, prepareErr := PrepareGitLogCommand(details, lastVcsRevision);
      // createErrRegExpHandler compiles a constant pattern, so its error is always nil and
      // overwrites prepareErr.
      var argv := logCmd.GetCmd();
      var run := git(cwd, argv);
      err := ClassifyParsedRun(run);
      if cleanup.Some? {
        var cleanupErr := RunCleanup(cleanup.value);
        err := Join(err, cleanupErr);
      }
    }

    /** ParseGitLogFromLastBuild, started in `wd`. */
    function LastBuildOutcome(wd: string, host: Host, svc: BuildHistory.Service, details: GitLogDetails, git: Git): Option<Error> {
      match ValidateGitAndGetVcsUrl(host, details)
      case Err(e) => Some(e)
      case Ok(v) =>
        match BuildHistory.LatestVcsRevision(svc, v.vcsUrl)
        case Err(e) => Some(e)
        case Ok(lastVcsRevision) => ParsedLogOutcome(wd, v.details, lastVcsRevision, git)
    }

    /** GetPlainGitLogFromPreviousBuild, started in `wd`. */
    function PreviousBuildOutcome(wd: string, host: Host, svc: BuildHistory.Service, details: GitLogDetails, git: Git): (string, Option<Error>)
      requires ValidateGitAndGetVcsUrl(host, details).Ok? ==> BuildHistory.ReachedRunsRecordCommits(svc)
    {
      match ValidateGitAndGetVcsUrl(host, details)
      case Err(e) => ("", Some(e))
      case Ok(v) =>
        match BuildHistory.VcsFromPreviousBuild(svc, v.vcsUrl)
        case Err(e) => ("", Some(e))
        case Ok(lastVcsRevision) => PlainLogOutcome(wd, v.details, lastVcsRevision, git)
    }

    /** ParseGitLogFromLastBuild: the log since the revision the latest build recorded for this
        repository's remote, parsed line by line. */
    method ParseGitLogFromLastBuild(host: Host, svc: BuildHistory.Service, details: GitLogDetails, git: Git)
      returns (err: Option<Error>)
      modifies this
      ensures cwd == old(cwd)
      ensures err == LastBuildOutcome(old(cwd), host, svc, details, git)
    {
      var validated := ValidateGitAndGetVcsUrl(host, details);
      if validated.Err? {
        return Some(validated.error);
      }
      var lastVcsRevision := BuildHistory.GetLatestVcsRevision(svc, validated.value.vcsUrl);
      if lastVcsRevision.Err? {
        return Some(lastVcsRevision.error);
      }
      err := ParseGitLogFromLastVcsRevision(validated.value.details, lastVcsRevision.value, git);
    }

    /** GetPlainGitLogFromPreviousBuild: the raw log since the revision recorded by the newest build
        whose head commit differs from the latest build's. */
    method GetPlainGitLogFromPreviousBuild(host: Host, svc: BuildHistory.Service, details: GitLogDetails, git: Git)
      returns (gitLog: string, err: Option<Error>)
      requires ValidateGitAndGetVcsUrl(host, details).Ok? ==> BuildHistory.ReachedRunsRecordCommits(svc)
      modifies this
      ensures cwd == old(cwd)
      ensures (gitLog, err) == PreviousBuildOutcome(old(cwd), host, svc, details, git)
    {
      var validated := ValidateGitAndGetVcsUrl(host, details);
      if validated.Err? {
        return "", Some(validated.error);
      }
      var lastVcsRevision := BuildHistory.GetVcsFromPreviousBuild(svc, validated.value.vcsUrl);
      if lastVcsRevision.Err? {
        return "", Some(lastVcsRevision.error);
      }
      gitLog, err := GetPlainGitLogFromLastVcsRevision(validated.value.details, lastVcsRevision.value, git);
    }

    // -------------------------------------------------------------------------
    // What the runners do

    /** In a repository whose `.git` directory exists, raw mode runs git there and reports what the
        run reports: its output on success, otherwise the classified error wrapped once by the
        deferred errors.Join, so that errors.As still finds a revision-range error. */
    lemma PlainLogInRepository(wd: string, details: GitLogDetails, lastVcsRevision: string, git: Git)
      requires wd in dirs && details.dotGitPath in dirs
      ensures var run := git(details.dotGitPath, LogArgv(LogCmd(details.logLimit, lastVcsRevision, details.prettyFormat)));
              var classified := ClassifyPlainRun(lastVcsRevision, run);
              var outcome := PlainLogOutcome(wd, details, lastVcsRevision, git);
              && outcome.0 == classified.0
              && (outcome.1.None? <==> run.err.None?)
              && (outcome.1.Some? ==> outcome.1 == Some(JoinError([classified.1.value])))
              && (outcome.1.Some? ==> (AsRevisionRange(outcome.1.value) <==> AsRevisionRange(classified.1.value)))
    {
      var run := LogRun(wd, details, lastVcsRevision, git);
      var classified := ClassifyPlainRun(lastVcsRevision, run);
      if classified.1.Some? {
        var joined := JoinError([classified.1.value]);
        assert joined.errs[0] == classified.1.value;
        if AsRevisionRange(joined) {
          var i :| 0 <= i < |joined.errs| && AsRevisionRange(joined.errs[i]);
          assert i == 0;
        }
      }
    }

    /** In parsed mode, in a repository whose `.git` directory exists, a run that fails with a
        revision-range error, or that exits cleanly without error, leaves no error at all. */
    lemma ParsedLogInRepository(wd: string, details: GitLogDetails, lastVcsRevision: string, git: Git)
      requires wd in dirs && details.dotGitPath in dirs
      ensures var run := git(details.dotGitPath, LogArgv(LogCmd(details.logLimit, lastVcsRevision, details.prettyFormat)));
              ParsedLogOutcome(wd, details, lastVcsRevision, git).None?
              <==> (run.err.Some? && AsRevisionRange(run.err.value)) || (run.err.None? && run.exitOk)
    {
    }

    /** When the `.git` directory cannot be entered, git still runs, in the working directory, and
        its output is still returned; the Chdir error comes back only through the cleanup's join. */
    lemma ChdirFailureRunsInWorkingDir(wd: string, details: GitLogDetails, lastVcsRevision: string, git: Git)
      requires wd in dirs && details.dotGitPath !in dirs
      ensures var run := git(wd, LogArgv(LogCmd(details.logLimit, lastVcsRevision, details.prettyFormat)));
              var outcome := PlainLogOutcome(wd, details, lastVcsRevision, git);
              && outcome.0 == ClassifyPlainRun(lastVcsRevision, run).0
              && outcome.1.Some?
              && ChdirError(details.dotGitPath).value in outcome.1.value.errs[|outcome.1.value.errs| - 1].errs
    {
      var e := ClassifyPlainRun(lastVcsRevision, LogRun(wd, details, lastVcsRevision, git)).1;
      var c := Join(ChdirError(details.dotGitPath), ChdirError(wd));
      assert c == Some(JoinError([ChdirError(details.dotGitPath).value]));
      assert ChdirError(details.dotGitPath).value in c.value.errs;
      if e.Some? {
        assert Join(e, c).value.errs == [e.value, c.value];
      } else {
        assert Join(e, c).value.errs == [c.value];
      }
    }

    /** When the working directory cannot be read, prepareGitLogCommand's error is overwritten by
        the caller: git runs where the process is and the outcome is the run's alone, in both modes. */
    lemma GetwdFailureIsSilent(wd: string, details: GitLogDetails, lastVcsRevision: string, git: Git)
      requires wd !in dirs
      ensures var run := git(wd, LogArgv(LogCmd(details.logLimit, lastVcsRevision, details.prettyFormat)));
              && PlainLogOutcome(wd, details, lastVcsRevision, git) == ClassifyPlainRun(lastVcsRevision, run)
              && ParsedLogOutcome(wd, details, lastVcsRevision, git) == ClassifyParsedRun(run)
    {
    }

    /** Validation comes first: without git on the PATH, neither entry point consults the build
        service or runs git, and each reports the LookPath error. */
    lemma GitMissingStopsBothEntryPoints(wd: string, host: Host, svc: BuildHistory.Service, details: GitLogDetails, git: Git)
      requires host.lookPathGit.Some?
      ensures LastBuildOutcome(wd, host, svc, details, git) == Some(host.lookPathGit.value)
      ensures PreviousBuildOutcome(wd, host, svc, details, git) == ("", Some(host.lookPathGit.value))
    {
    }

    /** Parsed mode from the last build: with git, the repository and the latest build in place,
        the log starts at the revision the latest build recorded for this remote, and a revision
        that history no longer contains is not an error. */
    lemma LastBuildLogsFromLatestRevision(wd: string, host: Host, svc: BuildHistory.Service, details: GitLogDetails, git: Git)
      requires ValidateGitAndGetVcsUrl(host, details).Ok?
      requires BuildHistory.LatestVcsRevision(svc, ValidateGitAndGetVcsUrl(host, details).value.vcsUrl).Ok?
      requires wd in dirs && ValidateGitAndGetVcsUrl(host, details).value.details.dotGitPath in dirs
      ensures var v := ValidateGitAndGetVcsUrl(host, details).value;
              var rev := BuildHistory.LatestVcsRevision(svc, v.vcsUrl).value;
              var run := git(v.details.dotGitPath, LogArgv(LogCmd(details.logLimit, rev, details.prettyFormat)));
              LastBuildOutcome(wd, host, svc, details, git).None?
              <==> (run.err.Some? && AsRevisionRange(run.err.value)) || (run.err.None? && run.exitOk)
    {
      var v := ValidateGitAndGetVcsUrl(host, details).value;
      var rev := BuildHistory.LatestVcsRevision(svc, v.vcsUrl).value;
      ParsedLogInRepository(wd, v.details, rev, git);
    }
  }
}
