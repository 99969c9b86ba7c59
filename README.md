# VCS history reconciliation (`artifactory/utils/vcs.go`), modelled in Dafny

The JFrog CLI attaches the git history of a build to the build record it publishes.
`artifactory/utils/vcs.go` decides where that history starts and how it is collected:

- It looks up the revision that an earlier published build recorded for this repository's remote URL.
- It runs `git log` from that revision to HEAD, from the repository's `.git` directory.
- It sorts the outcome into three cases:
  - success;
  - "the revision is no longer in the history" (a `RevisionRangeError`, which parsed mode swallows);
  - any other failure.
- It also rewrites a build's REST API URI into the link of the build's evidence page in the UI.

This project models that logic and proves what it does. The Artifactory service, the git
subprocess, the repository search and the git configuration become inputs. The process's
working directory, which the runners change and restore, is the state of a class.

Files and modules:

- `errors.dfy` — `Errors`: Go's error values.
  - `errors.Join` wraps even a single non-nil error.
  - `errors.As` finds a `RevisionRangeError` through joins.
- `gotext.dfy` — `GoText`: the pieces of `strings` and `strconv` the code uses.
  - `HasPrefix`, `TrimPrefix`.
  - `TrimSpace`, with Go's `unicode.IsSpace` set.
  - `Itoa` and its inverse.
  - Go's truncating integer division.
  - `strings.Join`.
- `build_history.dfy` — `BuildHistory`: the three ways of picking an earlier build.
  - A: the build numbered "LATEST".
  - B: the build at a position in the newest-first run list.
  - C: the newest build whose first recorded commit differs from the newest build's.
  - Also the revision lookup inside one build.
- `git_log.dfy` — `GitLog`:
  - the `git log` argv;
  - the revision-range error and its message;
  - the error-line pattern `fatal: Invalid revision range [a-fA-F0-9]+\.\.`, by a scanner proved equivalent to the pattern;
  - the classification of a run in raw and in parsed mode;
  - `GetDotGit`.
- `ui_link.dfy` — `UiLink`: `convertToUiLink` and `GetLastBuildLink`.
  - The expression `(https://.+?)/artifactory/api/build/([^/]+)/([^?]+)(\?.+)?` is matched by a hand-written search with Go's leftmost-first semantics:
    - the leftmost start wins;
    - then the shortest base, whose `.` stops at a line break;
    - then the longest name and number (their negated classes do match line breaks);
    - then the optional query, which runs to the end of the line.
  - The search is proved sound, and complete for every URI that contains a match.
  - Parsing is proved to undo putting well-formed groups back together when the host holds no "/".
- `vcs.dfy` — `Vcs`: the entry points.
  - `validateGitAndGetVcsUrl`.
  - The class `Process`, whose field `cwd` is the working directory.
  - `os.Getwd`, `os.Chdir`, `prepareGitLogCommand` and its deferred cleanup.
  - The two runners, and `ParseGitLogFromLastBuild` / `GetPlainGitLogFromPreviousBuild`.
  - The two runners and the two entry points are each proved equal to a specification function of the starting directory, and proved to restore the working directory whenever it could be read.

Behaviour of the code that the model keeps as written:

- **The preparation error is discarded.** `prepareGitLogCommand`'s error is assigned to the runner's `err` and then overwritten (vcs.go:98 in parsed mode, vcs.go:372 in raw mode).
  - When the working directory cannot be read, nothing reports it: there is no cleanup, and git runs where the process is (`Vcs.Process.GetwdFailureIsSilent`).
  - When the `.git` directory cannot be entered, git still runs, in the working directory, and its output is still returned. The `Chdir` error surfaces only through the deferred `errors.Join` (`Vcs.Process.ChdirFailureRunsInWorkingDir`).
- **Raw mode wraps its errors.** When the working directory could be read, every error raw mode returns has passed through the deferred `errors.Join(err, cleanup())`, so it is wrapped once in a join. When `os.Getwd` fails there is no cleanup (vcs.go:352-353, 367), and the run's error comes back unwrapped. That includes the revision-range error. `errors.As` still finds it (`Vcs.Process.PlainLogInRepository`).
- **Policy C ignores the remote URL.** It compares `VcsList[0].Revision` of each build, whichever repository comes first in the list (vcs.go:289), while policies A and B look the remote URL up (`BuildHistory.PolicyCIgnoresRemoteUrl`).
- **The raw entry point uses policy C, not policy B.** `GetPlainGitLogFromPreviousBuild` calls `getVcsFromPreviousBuild`, which calls `getPreviousBuildsCommit` (vcs.go:68, vcs.go:149). This is policy C, the first build whose head commit differs from the newest build's. It is not the position-based `getPreviousBuild`, even though the comments at vcs.go:58-61 and vcs.go:146-147 speak of a position. The model follows the code.

## Model

| member | source | states |
|---|---|---|
| Errors.Join | artifactory/utils/vcs.go:94-96 | errors.Join as the deferred cleanup uses it: nil exactly when both errors are nil, otherwise a join that holds every non-nil argument and nothing else |
| Errors.AsRevisionRangeFindsWrapped | artifactory/utils/vcs.go:106-107 | errors.As succeeds exactly when a RevisionRangeError is somewhere in the tree of errors reachable by unwrapping joins |
| Errors.JoinKeepsRevisionRange | artifactory/utils/vcs.go:106-111 | joining never hides a RevisionRangeError from errors.As |
| Errors.JoinAddsNoRevisionRange | artifactory/utils/vcs.go:106-111 | joining never invents a RevisionRangeError: errors.As finds one in a join only when one of the joined errors holds it |
| GoText.HasPrefix | artifactory/utils/vcs.go:374 | strings.HasPrefix holds exactly when the text is the prefix followed by something |
| GoText.TrimPrefix | artifactory/utils/vcs.go:226 | strings.TrimPrefix removes exactly one leading copy of the prefix when there is one and otherwise changes nothing |
| GoText.TrimLeftSpace | artifactory/utils/vcs.go:374 | the result is a suffix of the input, everything cut is white space, and it starts with a non-space |
| GoText.TrimRightSpace | artifactory/utils/vcs.go:374 | the result is a prefix of the input, everything cut is white space, and it ends with a non-space |
| GoText.TrimSpace | artifactory/utils/vcs.go:374 | strings.TrimSpace gives the slice of the text between its leading and its trailing white space, and that slice starts and ends with a non-space |
| GoText.TrimSpaceKeepsPrefix | artifactory/utils/vcs.go:374 | leading white space in the error output never hides the diagnostic prefix |
| GoText.NatToString | artifactory/utils/vcs.go:424 | the decimal text is non-empty, all digits, and has no leading zero |
| GoText.Itoa | artifactory/utils/vcs.go:424 | strconv.Itoa (and FormatInt in base 10, vcs.go:300) gives non-empty text that starts with "-" exactly for a negative number |
| GoText.ItoaRoundTrip | artifactory/utils/vcs.go:424 | strconv.Itoa loses nothing: its text reads back as the same integer |
| GoText.TruncDiv | artifactory/utils/vcs.go:301 | Go's integer division truncates toward zero: the remainder has the dividend's sign and is smaller than the divisor |
| GoText.JoinWith | artifactory/utils/vcs.go:318-325 | strings.Join: the empty list gives "" and one element gives that element; otherwise the text starts with the first element, ends with the last, and is as long as all elements plus one separator between each pair |
| GoText.JoinWithAppend | artifactory/utils/vcs.go:318-325 | appending an element to a non-empty list appends the separator and that element, so the join holds every element in order with the separator between each pair |
| BuildHistory.MatchingRevision | artifactory/utils/vcs.go:158-167 | a non-empty revision is one that an entry with the given URL records |
| BuildHistory.MatchingRevisionIsFirstMatch | artifactory/utils/vcs.go:158-167 | the revision is that of the first VCS entry with the given URL, and "" when no entry has it |
| BuildHistory.MatchingRevisionIgnoresLaterEntries | artifactory/utils/vcs.go:160-165 | entries after the first match never affect the result (the loop breaks) |
| BuildHistory.GetMatchingRevisionFromBuild | artifactory/utils/vcs.go:158-167 | the front-to-back loop with break returns exactly the first-match revision |
| BuildHistory.LatestBuildInfo | artifactory/utils/vcs.go:170-192 | a setup failure is returned before any fetch; a failed fetch of "LATEST" is its error; a "LATEST" build that is not found yields an empty build info with no error; a found one yields its build info |
| BuildHistory.GetPreviousBuild | artifactory/utils/vcs.go:197-238 | a negative position is an error; a setup failure or a failed run-list request is returned as the error; no run list or too few runs gives an empty record; otherwise the result is the fetch of the run at that position, using its URI without the leading "/" as the build number |
| BuildHistory.NegativePositionNeedsNoService | artifactory/utils/vcs.go:198-200 | a negative position is rejected whatever the service would answer |
| BuildHistory.PositionZeroIsLatest | artifactory/utils/vcs.go:170-192 | position 0 agrees with the "LATEST" build whenever the service resolves "LATEST" to its newest run |
| BuildHistory.PreviousBuildsCommit | artifactory/utils/vcs.go:243-276 | the early exits of policy C: a setup failure, a failed run-list request or a failed fetch of the newest build is returned as the error; no run list, an empty one, or a newest build that is not found gives the empty record |
| BuildHistory.ScanDecidesAtFirstDifference | artifactory/utils/vcs.go:274-293 | the search is decided by the first run that is not found, fails, or has a different head commit; if every run has the baseline commit, the result is "no previous builds commit has found"; only the runs up to the deciding one need to record a commit for the search not to panic |
| BuildHistory.ScanIgnoresLaterRuns | artifactory/utils/vcs.go:282-291 | once a run decides the search, runs listed after it are never examined: they change neither the result nor whether the search can panic |
| BuildHistory.PreviousBuildsCommitSkipsNewest | artifactory/utils/vcs.go:262-293 | the newest run is compared with itself and so is never returned; the first later run whose head commit differs decides, and with none the search is exhausted; only the newest build and the runs reached need a commit |
| BuildHistory.GetPreviousBuildsCommit | artifactory/utils/vcs.go:243-294 | the loop with its early exits computes exactly the policy C search, for every service on which the search reads no empty VCS list |
| BuildHistory.DifferingBuildIsPreviousBuild | artifactory/utils/vcs.go:243-294 | the build policy C picks at index k is the build policy B gives at position k |
| BuildHistory.LatestVcsRevision | artifactory/utils/vcs.go:137-144 | a failure of the latest-build lookup is passed on; no "LATEST" build gives ""; a non-empty revision is one the "LATEST" build recorded for the remote URL |
| BuildHistory.GetLatestVcsRevision | artifactory/utils/vcs.go:137-144 | the method computes the latest-build revision lookup |
| BuildHistory.VcsFromPreviousBuild | artifactory/utils/vcs.go:148-155 | a failure of the policy C search is passed on; a non-empty revision is one the policy C build recorded for the remote URL |
| BuildHistory.GetVcsFromPreviousBuild | artifactory/utils/vcs.go:148-155 | the method computes the policy C revision lookup |
| BuildHistory.TwoRunsResolveToOlderRevision | artifactory/utils/vcs.go:148-155 | with two runs recording different commits for the remote, the raw entry point starts from the older run's revision, whatever older runs follow |
| BuildHistory.PolicyCIgnoresRemoteUrl | artifactory/utils/vcs.go:285-291 | policy C compares the first VCS entry of each build whatever its URL: when another repository comes first and its commit changed, the build picked records the same revision for this remote as the newest build |
| GitLog.LogCmd.GetCmd | artifactory/utils/vcs.go:421-429 | the appends build exactly `git log --pretty=<format> -<limit>`, plus `<rev>..` if and only if the revision is non-empty |
| GitLog.LogArgvRoundTrip | artifactory/utils/vcs.go:421-429 | format, limit and revision can all be read back from the argv, and an empty revision is exactly a four-word argv |
| GitLog.GetRevisionRangeError | artifactory/utils/vcs.go:400-404 | the error is a RevisionRangeError that errors.As recognises, and its message names the revision |
| GitLog.RangeLineMatcherCorrect | artifactory/utils/vcs.go:385 | the scanner accepts exactly the lines in which the pattern `fatal: Invalid revision range [a-fA-F0-9]+\.\.` occurs |
| GitLog.RevisionRangeLineHandler | artifactory/utils/vcs.go:383-398 | the error-stream handler fires exactly on lines the pattern matches, and then reports the revision-range error for the revision |
| GitLog.ClassifyPlainRun | artifactory/utils/vcs.go:372-379 | raw mode: stdout verbatim when the run has no error; otherwise "" and, when the trimmed error output starts with the diagnostic, the revision-range error naming the revision, else the run's own error |
| GitLog.ClassifyParsedRun | artifactory/utils/vcs.go:104-118 | parsed mode: no error exactly when the run's error is a revision-range error or the run had no error and exited cleanly; other errors pass through, and an unclean exit is "failed executing git log command" |
| GitLog.RangeDiagnosticInBothModes | artifactory/utils/vcs.go:372-398 | an error stream that begins with `fatal: Invalid revision range <hex>..` is reported as the revision-range error in raw mode, fires the handler, and is success in parsed mode |
| GitLog.GetDotGit | artifactory/utils/vcs.go:122-134 | a provided path is returned as is; otherwise the path found upward, "Could not find .git" when there is none, or the search's own error |
| UiLink.SpanUntil | artifactory/utils/vcs.go:302 | the longest run without the stop character: everything before the end differs from it, and the end is the stop or the end of the text |
| UiLink.ParseApiUrl | artifactory/utils/vcs.go:302-307 | a parsed URI contains a match: the groups satisfy their parts of the expression and, put back together, occur in the URI |
| UiLink.ParseApiUrlComplete | artifactory/utils/vcs.go:302-307 | whenever the URI contains, anywhere, well-formed groups put back together (`https://<host>/artifactory/api/build/<name>/<number>[?query]`), the URI parses |
| UiLink.ParseMatchedText | artifactory/utils/vcs.go:302-316 | a round trip: putting well-formed groups back together, with a host free of "/", and parsing the text gives back exactly that base, name, number and query |
| UiLink.BuildUiLink | artifactory/utils/vcs.go:300-327 | a URI that parses becomes the evidence page `<base>/ui/builds/<name>/<number>/<millis>/Evidence<query>` of its groups, with millis the nanoseconds divided by 1,000,000 and truncated toward zero; a URI without a match gives "invalid API URL format" |
| UiLink.ConvertToUiLink | artifactory/utils/vcs.go:296-328 | a start time that does not parse is the parser's error; otherwise the evidence page of the URI's match, or "invalid API URL format" |
| UiLink.GetLastBuildLink | artifactory/utils/vcs.go:76-86 | a failed lookup of the newest build, and a start time that does not parse, are passed on |
| UiLink.UiLinkOfMatchedText | artifactory/utils/vcs.go:296-327 | well-formed groups put back together as `https://<host>/artifactory/api/build/<name>/<number>`, with an optional `?<query>` and a host free of "/", become `https://<host>/ui/builds/<name>/<number>/<millis>/Evidence` followed by the same query |
| UiLink.NoBuildNoLink | artifactory/utils/vcs.go:76-86 | when there is no build to link to, GetLastBuildLink fails |
| UiLink.LinkShape | artifactory/utils/vcs.go:76-86 | when the newest build is found and its start time parses, the link is the evidence page of the well-formed match in that build's URI at that start time in milliseconds, and "invalid API URL format" when the URI has no match |
| Vcs.ValidateGitAndGetVcsUrl | artifactory/utils/vcs.go:331-344 | without git on the PATH, the LookPath error is returned; otherwise GetDotGit's error, or the error reading the remote, or success with that remote URL and the `.git` GetDotGit gives |
| Vcs.ProvidedDotGitIsUsed | artifactory/utils/vcs.go:339-344 | a provided `.git` path is used unchanged, and validation then succeeds exactly when its configuration can be read |
| Vcs.Process.ChdirError | artifactory/utils/vcs.go:358 | os.Chdir fails exactly when the target directory does not exist |
| Vcs.Process.Getwd | artifactory/utils/vcs.go:351-354 | os.Getwd returns the working directory, or fails when it no longer exists |
| Vcs.Process.Chdir | artifactory/utils/vcs.go:358 | os.Chdir moves to the directory when it exists and otherwise reports the error and stays |
| Vcs.Process.PrepareGitLogCommand | artifactory/utils/vcs.go:346-360 | the command holds the limit, revision and format; a failed Getwd gives no cleanup and no move; otherwise the process moves into `.git` if it can, and the cleanup remembers where to return and the Chdir error |
| Vcs.Process.RunCleanup | artifactory/utils/vcs.go:355-357 | the cleanup returns to the saved directory and joins the preparation's error with that Chdir's |
| Vcs.Process.GetPlainGitLogFromLastVcsRevision | artifactory/utils/vcs.go:364-380 | raw mode as a whole: git runs where the preparation left the process, the outcome is classified, the cleanup's error is joined in, and the working directory is restored |
| Vcs.Process.ParseGitLogFromLastVcsRevision | artifactory/utils/vcs.go:90-119 | parsed mode as a whole, with the same restoration of the working directory |
| Vcs.Process.ParseGitLogFromLastBuild | artifactory/utils/vcs.go:44-56 | validate, take the latest build's revision for the remote, then run parsed mode; the working directory is restored |
| Vcs.Process.GetPlainGitLogFromPreviousBuild | artifactory/utils/vcs.go:62-74 | validate, take the policy C build's revision for the remote, then run raw mode; the working directory is restored |
| Vcs.Process.PlainLogInRepository | artifactory/utils/vcs.go:364-380 | with the repository in place, raw mode returns the run's classification, with any error wrapped once by the deferred join; errors.As still finds a revision-range error |
| Vcs.Process.ParsedLogInRepository | artifactory/utils/vcs.go:90-119 | with the repository in place, parsed mode succeeds exactly on a revision-range error or a clean run |
| Vcs.Process.ChdirFailureRunsInWorkingDir | artifactory/utils/vcs.go:355-372 | when `.git` cannot be entered, git runs in the working directory, its output is returned, and the Chdir error comes back inside the cleanup's join |
| Vcs.Process.GetwdFailureIsSilent | artifactory/utils/vcs.go:351-372 | when the working directory cannot be read, the preparation's error is lost and the outcome is the run's alone, in both modes |
| Vcs.Process.GitMissingStopsBothEntryPoints | artifactory/utils/vcs.go:44-74 | without git on the PATH, both entry points report the LookPath error before any service call or git run |
| Vcs.Process.LastBuildLogsFromLatestRevision | artifactory/utils/vcs.go:44-56 | from the last build, the log starts at the revision the latest build recorded for the remote; a revision that history no longer contains is not an error |

## Left out

- The Artifactory client is an input, not a model (vcs.go:172-183, 203-228, 245-280). The service manager, the build name and the run and build-info requests appear only as the answers a `BuildHistory.Service` gives for one build name and project. A build number the service does not hold is "not found".
- The modelled service answers the same way every time it is asked. Builds deleted between two requests show up only as a "not found" answer.
- `gofrogcmd.RunCmdWithOutputParser` and its line-by-line dispatch to the parsers are not modelled. A git run is an input function from (directory, argv) to its result (stdout, error output, exitOk, err). Whatever the caller-supplied line parser does, including an error its handler returns, is part of that input; the model has no parser parameter. How the error-stream handler's result becomes the run's error is up to that library; `GitLog.RangeDiagnosticInBothModes` states what the handler reports.
- `exec.LookPath`, `fileutils.FindUpstream` and reading the remote URL from the git config (`getVcsUrl`, vcs.go:407-413) are inputs in `Vcs.Host`.
- The filesystem is reduced to a fixed set of existing directories. Relative paths, symbolic links and concurrent changes to the working directory are not modelled.
- `utils2.ParseIsoTimestamp` is an input function from the ISO 8601 text to epoch nanoseconds. `time.UnixNano`'s int64 range (years 1678 to 2262) is not modelled.
- The link for one concrete URI and start time is not evaluated as a literal; `UiLink.UiLinkOfMatchedText` states the rewrite for every URI of the matched form.
- Strings are sequences of code points, not UTF-8 bytes. The expression and the string functions used here treat both the same for these inputs.
- The `int` log limit is unbounded. Go's `int` range is not modelled.
- `BuildHistory.PreviousBuildsCommit`, `BuildHistory.GetPreviousBuildsCommit`, `BuildHistory.VcsFromPreviousBuild`, `BuildHistory.GetVcsFromPreviousBuild` and `Vcs.Process.GetPlainGitLogFromPreviousBuild` require `BuildHistory.ReachedRunsRecordCommits`: the newest build, and every build the search reaches up to and including the one that decides it, record at least one VCS entry. Where that does not hold, the source indexes `VcsList[0]` of an empty list and panics (vcs.go:289); the model does not describe that panic.
- `createErrRegExpHandler`'s compile error is not modelled. Its pattern is a constant that always compiles, so the error is always nil.
- Logging (`log.Info` at vcs.go:108), the `LogCmd.GetEnv` / `GetStdWriter` / `GetErrWriter` stubs (vcs.go:431-441) and the `BuildAndVcsDetails` interface (vcs.go:29-33) are left out: they have no behaviour to verify.
- `errorutils.CheckError` and `CheckErrorf` add a stack trace in debug builds only. They are modelled as the identity and as a plain error.
