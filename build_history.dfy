/** The build history walker: which previously published build, and which
    recorded revision, the git log should start from. The build-info service
    is abstracted as the answers it gives for one build name and project. */
module BuildHistory {
  import opened Errors
  import opened GoText

  /** One (repository URL, revision) pair a build recorded. */
  datatype Vcs = Vcs(url: string, revision: string)

  datatype BuildInfo = BuildInfo(started: string, vcsList: seq<Vcs>)

  /** A build record as the service publishes it: its API URI and its build info. */
  datatype PublishedBuildInfo = PublishedBuildInfo(uri: string, buildInfo: BuildInfo)

  /** One entry of the service's run list; its URI has the form "/<build number>". */
  datatype BuildRun = BuildRun(uri: string)

  /** The outcome of one service call: (value, found, err) in Go. */
  datatype Fetch<+T> = Found(value: T) | NotFound | Failed(error: Error)

  const EmptyBuildInfo := BuildInfo("", [])
  const EmptyPublishedBuildInfo := PublishedBuildInfo("", EmptyBuildInfo)

  /** The build number the service resolves to the newest build. */
  const LatestBuildNumberKey := "LATEST"

  const InvalidPositionMsg := "invalid input for previous build position. Input must be a non negative number"
  const NoPreviousBuildsCommitMsg := "no previous builds commit has found"

  /** What the service answers for one build name and project key.
      `setupError` is a failure to create the service manager or to read the
      build name, both of which happen before any call; `runs` is the run list,
      newest first; `builds` answers a build-info request by build number, a
      number it does not hold being "not found". */
  datatype Service = Service(
    setupError: Option<Error>,
    runs: Fetch<seq<BuildRun>>,
    builds: map<string, Fetch<PublishedBuildInfo>>)
  {
    /** sm.GetBuildInfo for this build name and project, at one build number. */
    function GetBuildInfo(buildNumber: string): Fetch<PublishedBuildInfo> {
      if buildNumber in builds then builds[buildNumber] else NotFound
    }
  }

  /** The build number a run stands for: its URI without the leading "/". */
  function BuildNumberOf(run: BuildRun): string {
    TrimPrefix(run.uri, "/")
  }

  // ---------------------------------------------------------------------------
  // The revision recorded for one repository URL

  /** The revision of the first VCS entry whose URL is `vcsUrl`, or "" when none is. */
  function MatchingRevision(vcsList: seq<Vcs>, vcsUrl: string): (r: string)
    ensures r != "" ==> exists i :: 0 <= i < |vcsList| && vcsList[i].url == vcsUrl && vcsList[i].revision == r
  {
    if vcsList == [] then ""
    else if vcsList[0].url == vcsUrl then vcsList[0].revision
    else MatchingRevision(vcsList[1..], vcsUrl)
  }

  /** The first matching entry decides; with no matching entry the result is "". */
  lemma {:induction false} MatchingRevisionIsFirstMatch(vcsList: seq<Vcs>, vcsUrl: string, k: nat)
    requires k <= |vcsList|
    requires forall i :: 0 <= i < k ==> vcsList[i].url != vcsUrl
    requires k < |vcsList| ==> vcsList[k].url == vcsUrl
    ensures k == |vcsList| ==> MatchingRevision(vcsList, vcsUrl) == ""
    ensures k < |vcsList| ==> MatchingRevision(vcsList, vcsUrl) == vcsList[k].revision
  {
    if k > 0 {
      MatchingRevisionIsFirstMatch(vcsList[1..], vcsUrl, k - 1);
    }
  }

  /** Entries after a matching one never affect the result. */
  lemma {:induction false} MatchingRevisionIgnoresLaterEntries(vcsList: seq<Vcs>, more: seq<Vcs>, vcsUrl: string)
    requires exists i :: 0 <= i < |vcsList| && vcsList[i].url == vcsUrl
    ensures MatchingRevision(vcsList + more, vcsUrl) == MatchingRevision(vcsList, vcsUrl)
  {
    if vcsList[0].url != vcsUrl {
      assert (vcsList + more)[1..] == vcsList[1..] + more;
      var i :| 0 <= i < |vcsList| && vcsList[i].url == vcsUrl;
      assert vcsList[1..][i - 1].url == vcsUrl;
      MatchingRevisionIgnoresLaterEntries(vcsList[1..], more, vcsUrl);
    }
  }

  /** getMatchingRevisionFromBuild: scans the VCS list front to back and stops at the first match. */
  method GetMatchingRevisionFromBuild(buildInfo: BuildInfo, vcsUrl: string) returns (lastVcsRevision: string)
    ensures lastVcsRevision == MatchingRevision(buildInfo.vcsList, vcsUrl)
  {
    var vcsList := buildInfo.vcsList;
    lastVcsRevision := "";
    var i := 0;
    while i < |vcsList|
      invariant 0 <= i <= |vcsList|
      invariant MatchingRevision(vcsList[i..], vcsUrl) == MatchingRevision(vcsList, vcsUrl)
    {
      if vcsList[i].url == vcsUrl {
        lastVcsRevision := vcsList[i].revision;
        break;
      }
      assert vcsList[i..][1..] == vcsList[i + 1..];
      i := i + 1;
    }
  }

  // ---------------------------------------------------------------------------
  // Policy A: the latest build

  /** getLatestBuildInfo: the build info of the newest build, an empty one when the service has none. */
  function LatestBuildInfo(svc: Service): (r: Result<BuildInfo>)
    ensures svc.setupError.Some? ==> r == Err(svc.setupError.value)
    ensures svc.setupError.None? && svc.GetBuildInfo(LatestBuildNumberKey).Failed?
            ==> r == Err(svc.GetBuildInfo(LatestBuildNumberKey).error)
    ensures svc.setupError.None? && svc.GetBuildInfo(LatestBuildNumberKey).NotFound? ==> r == Ok(EmptyBuildInfo)
    ensures svc.setupError.None? && svc.GetBuildInfo(LatestBuildNumberKey).Found?
            ==> r == Ok(svc.GetBuildInfo(LatestBuildNumberKey).value.buildInfo)
  {
    if svc.setupError.Some? then Err(svc.setupError.value)
    else match svc.GetBuildInfo(LatestBuildNumberKey)
      case Failed(e) => Err(e)
      case NotFound => Ok(EmptyBuildInfo)
      case Found(published) => Ok(published.buildInfo)
  }

  // ---------------------------------------------------------------------------
  // Policy B: the build at a given position, newest first

  /** What one build-info fetch means to a policy: a record, an empty record, or an error. */
  function FetchVerdict(fetched: Fetch<PublishedBuildInfo>): Result<PublishedBuildInfo> {
    match fetched
    case Failed(e) => Err(e)
    case NotFound => Ok(EmptyPublishedBuildInfo)
    case Found(published) => Ok(published)
  }

  /** getPreviousBuild: the build `previousBuildPos` places back from the newest. */
  function GetPreviousBuild(svc: Service, previousBuildPos: int): (r: Result<PublishedBuildInfo>)
    ensures previousBuildPos < 0 ==> r == Err(Failure(InvalidPositionMsg))
    ensures previousBuildPos >= 0 && svc.setupError.Some? ==> r == Err(svc.setupError.value)
    ensures previousBuildPos >= 0 && svc.setupError.None? && svc.runs.Failed? ==> r == Err(svc.runs.error)
    ensures (previousBuildPos >= 0 && svc.setupError.None? &&
             (svc.runs.NotFound? || (svc.runs.Found? && |svc.runs.value| <= previousBuildPos)))
            ==> r == Ok(EmptyPublishedBuildInfo)
    ensures (previousBuildPos >= 0 && svc.setupError.None? && svc.runs.Found? && previousBuildPos < |svc.runs.value|)
            ==> r == FetchVerdict(svc.GetBuildInfo(BuildNumberOf(svc.runs.value[previousBuildPos])))
  {
    if previousBuildPos < 0 then Err(Failure(InvalidPositionMsg))
    else if svc.setupError.Some? then Err(svc.setupError.value)
    else match svc.runs
      case Failed(e) => Err(e)
      case NotFound => Ok(EmptyPublishedBuildInfo)
      case Found(runs) =>
        if |runs| - 1 < previousBuildPos then Ok(EmptyPublishedBuildInfo)
        else FetchVerdict(svc.GetBuildInfo(BuildNumberOf(runs[previousBuildPos])))
  }

  /** A negative position is rejected whatever the service would have answered: no call is made. */
  lemma NegativePositionNeedsNoService(svc1: Service, svc2: Service, previousBuildPos: int)
    requires previousBuildPos < 0
    ensures GetPreviousBuild(svc1, previousBuildPos) == GetPreviousBuild(svc2, previousBuildPos)
    ensures GetPreviousBuild(svc1, previousBuildPos).Err?
  {
  }

  /** Position 0 is the latest build whenever the service's "LATEST" is its newest listed run. */
  lemma PositionZeroIsLatest(svc: Service)
    requires svc.runs.Found? && |svc.runs.value| > 0
    requires svc.GetBuildInfo(LatestBuildNumberKey) == svc.GetBuildInfo(BuildNumberOf(svc.runs.value[0]))
    ensures LatestBuildInfo(svc).Err? <==> GetPreviousBuild(svc, 0).Err?
    ensures LatestBuildInfo(svc).Ok? ==> LatestBuildInfo(svc).value == GetPreviousBuild(svc, 0).value.buildInfo
  {
  }

  // ---------------------------------------------------------------------------
  // Policy C: the first build whose first recorded commit differs from the newest build's

  /** The run's build, when fetched and found, records at least one VCS entry. */
  predicate RecordsCommit(svc: Service, run: BuildRun) {
    var fetched := svc.GetBuildInfo(BuildNumberOf(run));
    fetched.Found? ==> |fetched.value.buildInfo.vcsList| > 0
  }

  function HeadRevision(published: PublishedBuildInfo): string
    requires |published.buildInfo.vcsList| > 0
  {
    published.buildInfo.vcsList[0].revision
  }

  /** The run is found and its first recorded commit is `baseline`: the scan goes on past it. */
  predicate SameCommit(svc: Service, run: BuildRun, baseline: string) {
    var fetched := svc.GetBuildInfo(BuildNumberOf(run));
    fetched.Found? && |fetched.value.buildInfo.vcsList| > 0 && HeadRevision(fetched.value) == baseline
  }

  /** Every build the scan over runs[i..] reads VcsList[0] of records a commit: the found runs
      it reaches, up to and including the one that decides. Runs after that are never fetched. */
  predicate ScanReadsCommits(svc: Service, runs: seq<BuildRun>, baseline: string, i: nat)
    requires i <= |runs|
    decreases |runs| - i
  {
    i == |runs| ||
    (RecordsCommit(svc, runs[i]) && (SameCommit(svc, runs[i], baseline) ==> ScanReadsCommits(svc, runs, baseline, i + 1)))
  }

  /** getPreviousBuildsCommit reads VcsList[0] of the newest build and of every build its loop
      reaches; where one of those is empty the source panics, so its callers need this. */
  predicate ReachedRunsRecordCommits(svc: Service) {
    svc.setupError.None? && svc.runs.Found? && |svc.runs.value| > 0 && svc.GetBuildInfo(BuildNumberOf(svc.runs.value[0])).Found?
    ==> var last := svc.GetBuildInfo(BuildNumberOf(svc.runs.value[0])).value;
        |last.buildInfo.vcsList| > 0 && ScanReadsCommits(svc, svc.runs.value, HeadRevision(last), 0)
  }

  /** The scan over runs[i..]: the first run that is not found, fails, or differs decides. */
  function ScanForDifferingCommit(svc: Service, runs: seq<BuildRun>, baseline: string, i: nat): Result<PublishedBuildInfo>
    requires i <= |runs| && ScanReadsCommits(svc, runs, baseline, i)
    decreases |runs| - i
  {
    if i == |runs| then Err(Failure(NoPreviousBuildsCommitMsg))
    else
      assert RecordsCommit(svc, runs[i]);
      match svc.GetBuildInfo(BuildNumberOf(runs[i]))
      case Failed(e) => Err(e)
      case NotFound => Ok(EmptyPublishedBuildInfo)
      case Found(published) =>
        if HeadRevision(published) != baseline then Ok(published)
        else ScanForDifferingCommit(svc, runs, baseline, i + 1)
  }

  /** The outcome of getPreviousBuildsCommit. */
  function PreviousBuildsCommit(svc: Service): (r: Result<PublishedBuildInfo>)
    requires ReachedRunsRecordCommits(svc)
    ensures svc.setupError.Some? ==> r == Err(svc.setupError.value)
    ensures svc.setupError.None? && svc.runs.Failed? ==> r == Err(svc.runs.error)
    ensures svc.setupError.None? && (svc.runs.NotFound? || (svc.runs.Found? && |svc.runs.value| == 0))
            ==> r == Ok(EmptyPublishedBuildInfo)
    ensures svc.setupError.None? && svc.runs.Found? && |svc.runs.value| > 0 ==>
              var last := svc.GetBuildInfo(BuildNumberOf(svc.runs.value[0]));
              && (last.Failed? ==> r == Err(last.error))
              && (last.NotFound? ==> r == Ok(EmptyPublishedBuildInfo))
  {
    if svc.setupError.Some? then Err(svc.setupError.value)
    else match svc.runs
      case Failed(e) => Err(e)
      case NotFound => Ok(EmptyPublishedBuildInfo)
      case Found(runs) =>
        if |runs| == 0 then Ok(EmptyPublishedBuildInfo)
        else match svc.GetBuildInfo(BuildNumberOf(runs[0]))
          case Failed(e) => Err(e)
          case NotFound => Ok(EmptyPublishedBuildInfo)
          case Found(last) => ScanForDifferingCommit(svc, runs, HeadRevision(last), 0)
  }

  /** The scan is decided by the first run at or after `i` that is not a found build with the baseline
      commit; when every run is such a build the search is exhausted. Only the runs up to the deciding
      one need to record a commit. */
  lemma {:induction false} ScanDecidesAtFirstDifference(svc: Service, runs: seq<BuildRun>, baseline: string, i: nat, k: nat)
    requires i <= k <= |runs|
    requires forall j :: i <= j < k ==> SameCommit(svc, runs[j], baseline)
    requires k < |runs| ==> !SameCommit(svc, runs[k], baseline) && RecordsCommit(svc, runs[k])
    ensures ScanReadsCommits(svc, runs, baseline, i)
    ensures k == |runs| ==> ScanForDifferingCommit(svc, runs, baseline, i) == Err(Failure(NoPreviousBuildsCommitMsg))
    ensures k < |runs| ==> ScanForDifferingCommit(svc, runs, baseline, i) == FetchVerdict(svc.GetBuildInfo(BuildNumberOf(runs[k])))
    decreases k - i
  {
    if i < k {
      assert SameCommit(svc, runs[i], baseline);
      ScanDecidesAtFirstDifference(svc, runs, baseline, i + 1, k);
    }
  }

  /** Once a run decides the scan, runs listed after it are never looked at: they need not even
      record a commit. */
  lemma {:induction false} ScanIgnoresLaterRuns(svc: Service, runs: seq<BuildRun>, more: seq<BuildRun>, baseline: string, i: nat)
    requires i <= |runs| && ScanReadsCommits(svc, runs, baseline, i)
    requires exists k :: i <= k < |runs| && !SameCommit(svc, runs[k], baseline)
    ensures ScanReadsCommits(svc, runs + more, baseline, i)
    ensures ScanForDifferingCommit(svc, runs + more, baseline, i) == ScanForDifferingCommit(svc, runs, baseline, i)
    decreases |runs| - i
  {
    assert (runs + more)[i] == runs[i];
    if SameCommit(svc, runs[i], baseline) {
      var k :| i <= k < |runs| && !SameCommit(svc, runs[k], baseline);
      assert k != i;
      ScanIgnoresLaterRuns(svc, runs, more, baseline, i + 1);
    }
  }

  /** Policy C never returns the newest run: the run at index 0 is compared with itself, so the
      first run that can decide is at index 1 or later, and with none the search is exhausted.
      Only the runs up to the deciding one need to record a commit. */
  lemma PreviousBuildsCommitSkipsNewest(svc: Service, k: nat)
    requires svc.setupError.None? && svc.runs.Found? && |svc.runs.value| > 0
    requires svc.GetBuildInfo(BuildNumberOf(svc.runs.value[0])).Found?
    requires |svc.GetBuildInfo(BuildNumberOf(svc.runs.value[0])).value.buildInfo.vcsList| > 0
    requires 1 <= k <= |svc.runs.value|
    requires forall j :: 1 <= j < k ==>
               SameCommit(svc, svc.runs.value[j], HeadRevision(svc.GetBuildInfo(BuildNumberOf(svc.runs.value[0])).value))
    requires k < |svc.runs.value| ==>
               && !SameCommit(svc, svc.runs.value[k], HeadRevision(svc.GetBuildInfo(BuildNumberOf(svc.runs.value[0])).value))
               && RecordsCommit(svc, svc.runs.value[k])
    ensures ReachedRunsRecordCommits(svc)
    ensures k == |svc.runs.value| ==> PreviousBuildsCommit(svc) == Err(Failure(NoPreviousBuildsCommitMsg))
    ensures k < |svc.runs.value| ==> PreviousBuildsCommit(svc) == FetchVerdict(svc.GetBuildInfo(BuildNumberOf(svc.runs.value[k])))
  {
    var runs := svc.runs.value;
    var baseline := HeadRevision(svc.GetBuildInfo(BuildNumberOf(runs[0])).value);
    assert SameCommit(svc, runs[0], baseline);
    ScanDecidesAtFirstDifference(svc, runs, baseline, 0, k);
  }

  /** getPreviousBuildsCommit: a linear search from the newest run to the oldest. */
  method GetPreviousBuildsCommit(svc: Service) returns (r: Result<PublishedBuildInfo>)
    requires ReachedRunsRecordCommits(svc)
    ensures r == PreviousBuildsCommit(svc)
  {
    if svc.setupError.Some? {
      return Err(svc.setupError.value);
    }
    if svc.runs.Failed? {
      return Err(svc.runs.error);
    }
    if svc.runs.NotFound? || |svc.runs.value| == 0 {
      return Ok(EmptyPublishedBuildInfo);
    }
    var runs := svc.runs.value;
    var last := svc.GetBuildInfo(BuildNumberOf(runs[0]));
    if last.Failed? {
      return Err(last.error);
    }
    if last.NotFound? {
      return Ok(EmptyPublishedBuildInfo);
    }
    var baseline := HeadRevision(last.value);
    var i := 0;
    while i < |runs|
      invariant 0 <= i <= |runs|
      invariant ScanReadsCommits(svc, runs, baseline, i)
      invariant ScanForDifferingCommit(svc, runs, baseline, i) == ScanForDifferingCommit(svc, runs, baseline, 0)
    {
      var buildNumber := BuildNumberOf(runs[i]);
      var published := svc.GetBuildInfo(buildNumber);
      if published.Failed? {
        return Err(published.error);
      }
      if published.NotFound? {
        return Ok(EmptyPublishedBuildInfo);
      }
      if HeadRevision(published.value) != baseline {
        return Ok(published.value);
      }
      i := i + 1;
    }
    return Err(Failure(NoPreviousBuildsCommitMsg));
  }

  /** The build Policy C picks is the one Policy B gives at the same position. */
  lemma DifferingBuildIsPreviousBuild(svc: Service, k: nat)
    requires svc.setupError.None? && svc.runs.Found? && 1 <= k < |svc.runs.value|
    requires svc.GetBuildInfo(BuildNumberOf(svc.runs.value[0])).Found?
    requires |svc.GetBuildInfo(BuildNumberOf(svc.runs.value[0])).value.buildInfo.vcsList| > 0
    requires forall j :: 1 <= j < k ==>
               SameCommit(svc, svc.runs.value[j], HeadRevision(svc.GetBuildInfo(BuildNumberOf(svc.runs.value[0])).value))
    requires !SameCommit(svc, svc.runs.value[k], HeadRevision(svc.GetBuildInfo(BuildNumberOf(svc.runs.value[0])).value))
    requires RecordsCommit(svc, svc.runs.value[k])
    ensures ReachedRunsRecordCommits(svc)
    ensures PreviousBuildsCommit(svc) == GetPreviousBuild(svc, k)
  {
    PreviousBuildsCommitSkipsNewest(svc, k);
  }

  // ---------------------------------------------------------------------------
  // The reference revision

  /** getLatestVcsRevision: the revision the latest build recorded for `vcsUrl`. */
  function LatestVcsRevision(svc: Service, vcsUrl: string): (r: Result<string>)
    ensures LatestBuildInfo(svc).Err? ==> r == Err(LatestBuildInfo(svc).error)
    ensures svc.setupError.None? && svc.GetBuildInfo(LatestBuildNumberKey).NotFound? ==> r == Ok("")
    ensures r.Ok? && r.value != "" ==>
              && svc.GetBuildInfo(LatestBuildNumberKey).Found?
              && exists i :: 0 <= i < |svc.GetBuildInfo(LatestBuildNumberKey).value.buildInfo.vcsList| &&
                   svc.GetBuildInfo(LatestBuildNumberKey).value.buildInfo.vcsList[i] == Vcs(vcsUrl, r.value)
  {
    match LatestBuildInfo(svc)
    case Err(e) => Err(e)
    case Ok(buildInfo) => Ok(MatchingRevision(buildInfo.vcsList, vcsUrl))
  }

  /** In a found "LATEST" build, the first entry for `vcsUrl` gives the revision, and with no
      such entry the revision is "". */
  lemma LatestVcsRevisionIsFirstMatch(svc: Service, vcsUrl: string, k: nat)
    requires svc.setupError.None? && svc.GetBuildInfo(LatestBuildNumberKey).Found?
    requires k <= |svc.GetBuildInfo(LatestBuildNumberKey).value.buildInfo.vcsList|
    requires forall i :: 0 <= i < k ==> svc.GetBuildInfo(LatestBuildNumberKey).value.buildInfo.vcsList[i].url != vcsUrl
    requires k < |svc.GetBuildInfo(LatestBuildNumberKey).value.buildInfo.vcsList| ==>
               svc.GetBuildInfo(LatestBuildNumberKey).value.buildInfo.vcsList[k].url == vcsUrl
    ensures k == |svc.GetBuildInfo(LatestBuildNumberKey).value.buildInfo.vcsList| ==> LatestVcsRevision(svc, vcsUrl) == Ok("")
    ensures k < |svc.GetBuildInfo(LatestBuildNumberKey).value.buildInfo.vcsList| ==>
              LatestVcsRevision(svc, vcsUrl) == Ok(svc.GetBuildInfo(LatestBuildNumberKey).value.buildInfo.vcsList[k].revision)
  {
    MatchingRevisionIsFirstMatch(svc.GetBuildInfo(LatestBuildNumberKey).value.buildInfo.vcsList, vcsUrl, k);
  }

  method GetLatestVcsRevision(svc: Service, vcsUrl: string) returns (r: Result<string>)
    ensures r == LatestVcsRevision(svc, vcsUrl)
  {
    var buildInfo := LatestBuildInfo(svc);
    if buildInfo.Err? {
      return Err(buildInfo.error);
    }
    var revision := GetMatchingRevisionFromBuild(buildInfo.value, vcsUrl);
    return Ok(revision);
  }

  /** getVcsFromPreviousBuild: the revision, for `vcsUrl`, of the build Policy C picks. */
  function VcsFromPreviousBuild(svc: Service, vcsUrl: string): (r: Result<string>)
    requires ReachedRunsRecordCommits(svc)
    ensures PreviousBuildsCommit(svc).Err? ==> r == Err(PreviousBuildsCommit(svc).error)
    ensures r.Ok? && r.value != "" ==>
              && PreviousBuildsCommit(svc).Ok?
              && exists i :: 0 <= i < |PreviousBuildsCommit(svc).value.buildInfo.vcsList| &&
                   PreviousBuildsCommit(svc).value.buildInfo.vcsList[i] == Vcs(vcsUrl, r.value)
  {
    match PreviousBuildsCommit(svc)
    case Err(e) => Err(e)
    case Ok(published) => Ok(MatchingRevision(published.buildInfo.vcsList, vcsUrl))
  }

  /** In the build Policy C picks, the first entry for `vcsUrl` gives the revision, and with no
      such entry (the empty record included) the revision is "". */
  lemma PreviousVcsRevisionIsFirstMatch(svc: Service, vcsUrl: string, k: nat)
    requires ReachedRunsRecordCommits(svc) && PreviousBuildsCommit(svc).Ok?
    requires k <= |PreviousBuildsCommit(svc).value.buildInfo.vcsList|
    requires forall i :: 0 <= i < k ==> PreviousBuildsCommit(svc).value.buildInfo.vcsList[i].url != vcsUrl
    requires k < |PreviousBuildsCommit(svc).value.buildInfo.vcsList| ==>
               PreviousBuildsCommit(svc).value.buildInfo.vcsList[k].url == vcsUrl
    ensures k == |PreviousBuildsCommit(svc).value.buildInfo.vcsList| ==> VcsFromPreviousBuild(svc, vcsUrl) == Ok("")
    ensures k < |PreviousBuildsCommit(svc).value.buildInfo.vcsList| ==>
              VcsFromPreviousBuild(svc, vcsUrl) == Ok(PreviousBuildsCommit(svc).value.buildInfo.vcsList[k].revision)
  {
    MatchingRevisionIsFirstMatch(PreviousBuildsCommit(svc).value.buildInfo.vcsList, vcsUrl, k);
  }

  method GetVcsFromPreviousBuild(svc: Service, vcsUrl: string) returns (r: Result<string>)
    requires ReachedRunsRecordCommits(svc)
    ensures r == VcsFromPreviousBuild(svc, vcsUrl)
  {
    var buildInfo := GetPreviousBuildsCommit(svc);
    if buildInfo.Err? {
      return Err(buildInfo.error);
    }
    var revision := GetMatchingRevisionFromBuild(buildInfo.value.buildInfo, vcsUrl);
    return Ok(revision);
  }

  /** The newest run recorded r1 for `vcsUrl` and the one before it r2 != r1: the walk resolves
      to r2, whatever older runs follow, even ones whose builds record no commit at all. */
  lemma TwoRunsResolveToOlderRevision(svc: Service, vcsUrl: string, r1: string, r2: string)
    requires r1 != r2
    requires svc.setupError.None? && svc.runs.Found? && |svc.runs.value| >= 2
    requires svc.GetBuildInfo(BuildNumberOf(svc.runs.value[0])).Found?
    requires svc.GetBuildInfo(BuildNumberOf(svc.runs.value[0])).value.buildInfo.vcsList == [Vcs(vcsUrl, r1)]
    requires svc.GetBuildInfo(BuildNumberOf(svc.runs.value[1])).Found?
    requires svc.GetBuildInfo(BuildNumberOf(svc.runs.value[1])).value.buildInfo.vcsList == [Vcs(vcsUrl, r2)]
    ensures ReachedRunsRecordCommits(svc)
    ensures PreviousBuildsCommit(svc) == Ok(svc.GetBuildInfo(BuildNumberOf(svc.runs.value[1])).value)
    ensures VcsFromPreviousBuild(svc, vcsUrl) == Ok(r2)
  {
    PreviousBuildsCommitSkipsNewest(svc, 1);
  }

  /** Policy C compares the first VCS entry of each build, whatever its URL: it ignores the remote
      URL that policies A and B look up. When the first entry is another repository whose commit
      changed while this remote's revision did not, the build picked records the same revision
      for this remote as the newest build does. */
  lemma PolicyCIgnoresRemoteUrl(svc: Service, vcsUrl: string, other: string, h0: string, h1: string, rev: string)
    requires other != vcsUrl && h0 != h1
    requires svc.setupError.None? && svc.runs.Found? && |svc.runs.value| >= 2
    requires svc.GetBuildInfo(BuildNumberOf(svc.runs.value[0])).Found?
    requires svc.GetBuildInfo(BuildNumberOf(svc.runs.value[0])).value.buildInfo.vcsList == [Vcs(other, h0), Vcs(vcsUrl, rev)]
    requires svc.GetBuildInfo(BuildNumberOf(svc.runs.value[1])).Found?
    requires svc.GetBuildInfo(BuildNumberOf(svc.runs.value[1])).value.buildInfo.vcsList == [Vcs(other, h1), Vcs(vcsUrl, rev)]
    ensures ReachedRunsRecordCommits(svc)
    ensures PreviousBuildsCommit(svc) == Ok(svc.GetBuildInfo(BuildNumberOf(svc.runs.value[1])).value)
    ensures VcsFromPreviousBuild(svc, vcsUrl) == Ok(rev)
    ensures MatchingRevision(svc.GetBuildInfo(BuildNumberOf(svc.runs.value[0])).value.buildInfo.vcsList, vcsUrl) == rev
  {
    PreviousBuildsCommitSkipsNewest(svc, 1);
    MatchingRevisionIsFirstMatch([Vcs(other, h1), Vcs(vcsUrl, rev)], vcsUrl, 1);
    MatchingRevisionIsFirstMatch([Vcs(other, h0), Vcs(vcsUrl, rev)], vcsUrl, 1);
  }
}
