/** convertToUiLink and GetLastBuildLink: rewriting a build's API URI into the
    link of its evidence page. The regular expression
    `(https://.+?)/artifactory/api/build/([^/]+)/([^?]+)(\?.+)?` is matched by a
    hand-written search with the same leftmost-first semantics as Go's regexp:
    the leftmost start, the shortest base, then the longest name, number and query. */
module UiLink {
  import opened Errors
  import opened GoText
  import BuildHistory

  const Scheme := "https://"
  const ApiBuildPath := "/artifactory/api/build/"
  const InvalidApiUrlMsg := "invalid API URL format"

  /** The four capture groups; `queryParams` is "" when the optional group did not take part. */
  datatype ApiUrl = ApiUrl(baseUrl: string, buildName: string, buildNumber: string, queryParams: string)

  /** The end of the longest run of characters other than `stop` that starts at `from`. */
  function SpanUntil(s: string, from: nat, stop: char): (end: nat)
    requires from <= |s|
    ensures from <= end <= |s|
    ensures forall k :: from <= k < end ==> s[k] != stop
    ensures end < |s| ==> s[end] == stop
    decreases |s| - from
  {
    if from == |s| || s[from] == stop then from else SpanUntil(s, from + 1, stop)
  }

  /** No character of `s` is `c`. */
  predicate Excludes(s: string, c: char) {
    forall k :: 0 <= k < |s| ==> s[k] != c
  }

  /** The optional group `(\?.+)?` at `at`: a "?" and the rest of the line, when that rest is not empty. */
  function QueryAt(u: string, at: nat): string
    requires at <= |u|
  {
    if at < |u| && u[at] == '?' then
      var e := SpanUntil(u, at + 1, '\n');
      if e > at + 1 then u[at..e] else ""
    else ""
  }

  /** Groups 2 to 4 of a match. */
  datatype PathGroups = PathGroups(buildName: string, buildNumber: string, queryParams: string)

  /** What the expression matches after the base ends at `p`: the API path, then name, number and query. */
  function MatchBuildPath(u: string, p: nat): Option<PathGroups>
    requires p <= |u|
  {
    if !StartsAt(u, p, ApiBuildPath) then None
    else
      var nameStart := p + |ApiBuildPath|;
      var nameEnd := SpanUntil(u, nameStart, '/');
      if nameEnd == nameStart || nameEnd == |u| then None
      else
        var numberEnd := SpanUntil(u, nameEnd + 1, '?');
        if numberEnd == nameEnd + 1 then None
        else Some(PathGroups(u[nameStart..nameEnd], u[nameEnd + 1..numberEnd], QueryAt(u, numberEnd)))
  }

  /** The lazy `.+?`: the shortest base `u[s..p]`, p >= s + 9, with no line break after the scheme,
      for which the rest of the expression matches. */
  function MatchLazyBase(u: string, s: nat, p: nat): Option<ApiUrl>
    requires s + |Scheme| < p <= |u|
    decreases |u| - p
  {
    if u[p - 1] == '\n' then None
    else match MatchBuildPath(u, p)
      case Some(g) => Some(ApiUrl(u[s..p], g.buildName, g.buildNumber, g.queryParams))
      case None => if p == |u| then None else MatchLazyBase(u, s, p + 1)
  }

  /** The leftmost match that starts at `s` or later. */
  function FindApiUrl(u: string, s: nat): Option<ApiUrl>
    requires s <= |u|
    decreases |u| - s
  {
    if s + |Scheme| >= |u| then None
    else if StartsAt(u, s, Scheme) then
      match MatchLazyBase(u, s, s + |Scheme| + 1)
      case Some(m) => Some(m)
      case None => FindApiUrl(u, s + 1)
    else FindApiUrl(u, s + 1)
  }

  /** re.FindStringSubmatch on the API URI: a match it reports holds what each part of the
      expression allows and, put back together, occurs in the URI. */
  function ParseApiUrl(u: string): (r: Option<ApiUrl>)
    ensures r.Some? ==> WellFormed(r.value) && exists i :: 0 <= i <= |u| && StartsAt(u, i, MatchedText(r.value))
  {
    var found := FindApiUrl(u, 0);
    if found.Some? then FindApiUrlSound(u, 0); found else found
  }

  /** What the expression matches from the API path on. */
  function PathText(name: string, number: string, query: string): string {
    ApiBuildPath + name + "/" + number + query
  }

  /** The text a match covers: the four groups put back together. */
  function MatchedText(a: ApiUrl): string {
    a.baseUrl + PathText(a.buildName, a.buildNumber, a.queryParams)
  }

  predicate WellFormedQuery(query: string) {
    query == "" || (|query| >= 2 && query[0] == '?' && Excludes(query[1..], '\n'))
  }

  /** `a` is a match the expression allows, and its text occurs in `u` at `s`. */
  predicate MatchedAt(u: string, s: nat, a: ApiUrl) {
    WellFormed(a) && StartsAt(u, s, MatchedText(a))
  }

  /** Each group holds what its part of the expression allows. */
  predicate WellFormed(a: ApiUrl) {
    && HasPrefix(a.baseUrl, Scheme) && |a.baseUrl| > |Scheme| && Excludes(a.baseUrl[|Scheme|..], '\n')
    && |a.buildName| > 0 && Excludes(a.buildName, '/')
    && |a.buildNumber| > 0 && Excludes(a.buildNumber, '?')
    && WellFormedQuery(a.queryParams)
  }

  // ---------------------------------------------------------------------------
  // Occurrences of text at a position

  lemma StartsAtConcat(u: string, p: nat, x: string, y: string)
    requires StartsAt(u, p, x) && StartsAt(u, p + |x|, y)
    ensures StartsAt(u, p, x + y)
  {
    assert u[p..p + |x| + |y|] == u[p..p + |x|] + u[p + |x|..p + |x| + |y|];
  }

  lemma StartsAtSplit(u: string, p: nat, x: string, y: string)
    requires StartsAt(u, p, x + y)
    ensures StartsAt(u, p, x) && StartsAt(u, p + |x|, y)
  {
    assert u[p..p + |x|] == (x + y)[..|x|];
    assert u[p + |x|..p + |x| + |y|] == (x + y)[|x|..];
  }

  lemma StartsAtChar(u: string, p: nat, c: char)
    requires p < |u|
    ensures StartsAt(u, p, [c]) <==> u[p] == c
  {
    if u[p] == c {
      assert u[p..p + 1] == [c];
    }
  }

  lemma StartsAtIndex(u: string, p: nat, w: string, k: nat)
    requires StartsAt(u, p, w) && k < |w|
    ensures u[p + k] == w[k]
  {
    assert u[p..p + |w|][k] == u[p + k];
  }

  lemma NotStartsAt(u: string, p: nat, w: string)
    requires p < |u| && |w| > 0
    ensures u[p] != w[0] ==> !StartsAt(u, p, w)
  {
    if StartsAt(u, p, w) {
      assert u[p..p + |w|][0] == u[p];
    }
  }

  /** Where the path text occurs, its five pieces occur one after another. */
  lemma PathTextSplit(u: string, p: nat, name: string, number: string, query: string)
    requires StartsAt(u, p, PathText(name, number, query))
    ensures && StartsAt(u, p, ApiBuildPath)
            && StartsAt(u, p + |ApiBuildPath|, name)
            && StartsAt(u, p + |ApiBuildPath| + |name|, "/")
            && StartsAt(u, p + |ApiBuildPath| + |name| + 1, number)
            && StartsAt(u, p + |ApiBuildPath| + |name| + 1 + |number|, query)
  {
    var w1 := ApiBuildPath + name;
    var w2 := w1 + "/";
    var w3 := w2 + number;
    StartsAtSplit(u, p, w3, query);
    StartsAtSplit(u, p, w2, number);
    StartsAtSplit(u, p, w1, "/");
    StartsAtSplit(u, p, ApiBuildPath, name);
  }

  /** Where the five pieces occur one after another, the path text occurs. */
  lemma PathTextJoin(u: string, p: nat, name: string, number: string, query: string)
    requires && StartsAt(u, p, ApiBuildPath)
             && StartsAt(u, p + |ApiBuildPath|, name)
             && StartsAt(u, p + |ApiBuildPath| + |name|, "/")
             && StartsAt(u, p + |ApiBuildPath| + |name| + 1, number)
             && StartsAt(u, p + |ApiBuildPath| + |name| + 1 + |number|, query)
    ensures StartsAt(u, p, PathText(name, number, query))
  {
    var w1 := ApiBuildPath + name;
    var w2 := w1 + "/";
    var w3 := w2 + number;
    StartsAtConcat(u, p, ApiBuildPath, name);
    StartsAtConcat(u, p, w1, "/");
    StartsAtConcat(u, p, w2, number);
    StartsAtConcat(u, p, w3, query);
  }

  lemma SpanExcludes(s: string, from: nat, stop: char)
    requires from <= |s|
    ensures Excludes(s[from..SpanUntil(s, from, stop)], stop)
  {
    var e := SpanUntil(s, from, stop);
    forall k | 0 <= k < e - from ensures s[from..e][k] != stop {
      assert s[from..e][k] == s[from + k];
    }
  }

  lemma SpanUntilIs(s: string, from: nat, stop: char, e: nat)
    requires from <= e <= |s|
    requires forall k :: from <= k < e ==> s[k] != stop
    requires e < |s| ==> s[e] == stop
    ensures SpanUntil(s, from, stop) == e
  {
  }

  /** A text free of `stop` that is followed by `stop` or by the end is exactly what SpanUntil spans. */
  lemma SpanOver(u: string, from: nat, w: string, stop: char)
    requires StartsAt(u, from, w) && Excludes(w, stop)
    requires from + |w| < |u| ==> u[from + |w|] == stop
    ensures SpanUntil(u, from, stop) == from + |w|
  {
    forall k | from <= k < from + |w| ensures u[k] != stop {
      StartsAtIndex(u, from, w, k - from);
    }
    SpanUntilIs(u, from, stop, from + |w|);
  }

  // ---------------------------------------------------------------------------
  // What a match means

  lemma QueryAtSound(u: string, at: nat)
    requires at <= |u|
    ensures WellFormedQuery(QueryAt(u, at))
    ensures StartsAt(u, at, QueryAt(u, at))
  {
    if QueryAt(u, at) != "" {
      var e := SpanUntil(u, at + 1, '\n');
      SpanExcludes(u, at + 1, '\n');
      assert u[at..e][1..] == u[at + 1..e];
    }
  }

  lemma MatchBuildPathSound(u: string, p: nat)
    requires p <= |u| && MatchBuildPath(u, p).Some?
    ensures var g := MatchBuildPath(u, p).value;
            && |g.buildName| > 0 && Excludes(g.buildName, '/')
            && |g.buildNumber| > 0 && Excludes(g.buildNumber, '?')
            && WellFormedQuery(g.queryParams)
            && StartsAt(u, p, PathText(g.buildName, g.buildNumber, g.queryParams))
  {
    var nameStart := p + |ApiBuildPath|;
    var nameEnd := SpanUntil(u, nameStart, '/');
    var numberEnd := SpanUntil(u, nameEnd + 1, '?');
    var g := PathGroups(u[nameStart..nameEnd], u[nameEnd + 1..numberEnd], QueryAt(u, numberEnd));
    assert MatchBuildPath(u, p).value == g;
    SpanExcludes(u, nameStart, '/');
    SpanExcludes(u, nameEnd + 1, '?');
    QueryAtSound(u, numberEnd);
    StartsAtChar(u, nameEnd, '/');
    PathTextJoin(u, p, g.buildName, g.buildNumber, g.queryParams);
  }

  lemma BaseSound(u: string, s: nat, p: nat)
    requires s + |Scheme| < p <= |u| && StartsAt(u, s, Scheme)
    requires forall k :: s + |Scheme| <= k < p ==> u[k] != '\n'
    ensures HasPrefix(u[s..p], Scheme) && Excludes(u[s..p][|Scheme|..], '\n')
  {
    assert u[s..p][..|Scheme|] == u[s..s + |Scheme|];
    forall k | 0 <= k < p - s - |Scheme| ensures u[s..p][|Scheme|..][k] != '\n' {
      assert u[s..p][|Scheme|..][k] == u[s + |Scheme| + k];
    }
  }

  /** A base ending where the rest of the expression matches gives a well-formed match that occurs at `s`. */
  lemma BaseAndPathSound(u: string, s: nat, p: nat, g: PathGroups)
    requires s + |Scheme| < p <= |u| && StartsAt(u, s, Scheme)
    requires forall k :: s + |Scheme| <= k < p ==> u[k] != '\n'
    requires MatchBuildPath(u, p) == Some(g)
    ensures MatchedAt(u, s, ApiUrl(u[s..p], g.buildName, g.buildNumber, g.queryParams))
  {
    var a := ApiUrl(u[s..p], g.buildName, g.buildNumber, g.queryParams);
    assert WellFormed(a) by {
      MatchBuildPathSound(u, p);
      BaseSound(u, s, p);
    }
    assert StartsAt(u, s, MatchedText(a)) by {
      var base := u[s..p];
      var path := PathText(g.buildName, g.buildNumber, g.queryParams);
      MatchBuildPathSound(u, p);
      assert StartsAt(u, p, path);
      assert StartsAt(u, s, base) && s + |base| == p;
      StartsAtConcat(u, s, base, path);
      assert MatchedText(a) == base + path;
    }
  }

  lemma {:induction false} MatchLazyBaseSound(u: string, s: nat, p: nat)
    requires s + |Scheme| < p <= |u| && StartsAt(u, s, Scheme)
    requires forall k :: s + |Scheme| <= k < p - 1 ==> u[k] != '\n'
    requires MatchLazyBase(u, s, p).Some?
    ensures MatchedAt(u, s, MatchLazyBase(u, s, p).value)
    decreases |u| - p
  {
    assert u[p - 1] != '\n';
    match MatchBuildPath(u, p)
    case Some(g) =>
      assert MatchLazyBase(u, s, p) == Some(ApiUrl(u[s..p], g.buildName, g.buildNumber, g.queryParams));
      BaseAndPathSound(u, s, p, g);
    case None =>
      assert MatchLazyBase(u, s, p) == MatchLazyBase(u, s, p + 1);
      assert forall k :: s + |Scheme| <= k < p ==> u[k] != '\n';
      MatchLazyBaseSound(u, s, p + 1);
  }

  lemma {:induction false} FindApiUrlSound(u: string, s: nat)
    requires s <= |u| && FindApiUrl(u, s).Some?
    ensures WellFormed(FindApiUrl(u, s).value)
    ensures exists i :: s <= i <= |u| && StartsAt(u, i, MatchedText(FindApiUrl(u, s).value))
    decreases |u| - s
  {
    if StartsAt(u, s, Scheme) && MatchLazyBase(u, s, s + |Scheme| + 1).Some? {
      MatchLazyBaseSound(u, s, s + |Scheme| + 1);
    } else {
      FindApiUrlSound(u, s + 1);
    }
  }

  // ---------------------------------------------------------------------------
  // When there is a match, it is found

  lemma MatchBuildPathComplete(u: string, p: nat, name: string, number: string)
    requires |name| > 0 && Excludes(name, '/') && |number| > 0 && Excludes(number, '?')
    requires StartsAt(u, p, PathText(name, number, ""))
    ensures MatchBuildPath(u, p).Some?
  {
    PathTextSplit(u, p, name, number, "");
    var nameEnd := p + |ApiBuildPath| + |name|;
    StartsAtChar(u, nameEnd, '/');
    SpanOver(u, p + |ApiBuildPath|, name, '/');
    StartsAtIndex(u, nameEnd + 1, number, 0);
  }

  lemma {:induction false} MatchLazyBaseComplete(u: string, s: nat, p: nat, q: nat, name: string, number: string)
    requires s + |Scheme| < p <= q <= |u|
    requires forall k :: p - 1 <= k < q ==> u[k] != '\n'
    requires |name| > 0 && Excludes(name, '/') && |number| > 0 && Excludes(number, '?')
    requires StartsAt(u, q, PathText(name, number, ""))
    ensures MatchLazyBase(u, s, p).Some?
    decreases q - p
  {
    if p < q && MatchBuildPath(u, p).None? {
      MatchLazyBaseComplete(u, s, p + 1, q, name, number);
    } else if p == q {
      MatchBuildPathComplete(u, q, name, number);
    }
  }

  /** A well-formed match text occurring at `i` is found by a search that starts at `i`. */
  lemma FindApiUrlAt(u: string, i: nat, a: ApiUrl)
    requires WellFormed(a) && a.queryParams == "" && StartsAt(u, i, MatchedText(a))
    ensures FindApiUrl(u, i).Some?
  {
    var path := PathText(a.buildName, a.buildNumber, "");
    StartsAtSplit(u, i, a.baseUrl, path);
    BaseOccurs(u, i, a.baseUrl);
    MatchLazyBaseComplete(u, i, i + |Scheme| + 1, i + |a.baseUrl|, a.buildName, a.buildNumber);
  }

  /** A base the expression allows, occurring at `i`: the scheme is there, and no line break follows it. */
  lemma BaseOccurs(u: string, i: nat, base: string)
    requires HasPrefix(base, Scheme) && |base| > |Scheme| && Excludes(base[|Scheme|..], '\n')
    requires StartsAt(u, i, base)
    ensures StartsAt(u, i, Scheme)
    ensures forall k :: i + |Scheme| <= k < i + |base| ==> u[k] != '\n'
  {
    assert base == Scheme + base[|Scheme|..];
    StartsAtSplit(u, i, Scheme, base[|Scheme|..]);
    forall k | i + |Scheme| <= k < i + |base| ensures u[k] != '\n' {
      StartsAtIndex(u, i + |Scheme|, base[|Scheme|..], k - i - |Scheme|);
    }
  }

  lemma {:induction false} FindApiUrlComplete(u: string, s: nat, i: nat, a: ApiUrl)
    requires s <= i
    requires WellFormed(a) && a.queryParams == "" && StartsAt(u, i, MatchedText(a))
    ensures FindApiUrl(u, s).Some?
    decreases i - s
  {
    if s < i {
      if !(StartsAt(u, s, Scheme) && MatchLazyBase(u, s, s + |Scheme| + 1).Some?) {
        FindApiUrlComplete(u, s + 1, i, a);
      }
    } else {
      FindApiUrlAt(u, i, a);
    }
  }

  /** Whenever the URI contains `https://<host>/artifactory/api/build/<name>/<number>`, with the
      parts the expression allows, it parses. */
  lemma ParseApiUrlComplete(u: string, i: nat, a: ApiUrl)
    requires WellFormed(a) && StartsAt(u, i, MatchedText(a))
    ensures ParseApiUrl(u).Some?
  {
    var bare := a.(queryParams := "");
    var path := PathText(a.buildName, a.buildNumber, "");
    StartsAtSplit(u, i, a.baseUrl, PathText(a.buildName, a.buildNumber, a.queryParams));
    assert PathText(a.buildName, a.buildNumber, a.queryParams) == path + a.queryParams;
    StartsAtSplit(u, i + |a.baseUrl|, path, a.queryParams);
    StartsAtConcat(u, i, a.baseUrl, path);
    FindApiUrlComplete(u, 0, i, bare);
  }

  // ---------------------------------------------------------------------------
  // Exactly the parts of a well-formed URI

  /** After the base, the API path with a name free of "/", a number free of "?" and a query
      that ends the URI yield exactly those groups. */
  lemma MatchBuildPathExact(u: string, p: nat, name: string, number: string, query: string)
    requires |name| > 0 && Excludes(name, '/') && |number| > 0 && Excludes(number, '?')
    requires WellFormedQuery(query)
    requires StartsAt(u, p, PathText(name, number, query)) && p + |PathText(name, number, query)| == |u|
    ensures MatchBuildPath(u, p) == Some(PathGroups(name, number, query))
  {
    PathTextSplit(u, p, name, number, query);
    MatchPartsExact(u, p, name, number, query);
  }

  /** MatchBuildPathExact with the path already split into its five consecutive pieces. */
  lemma MatchPartsExact(u: string, p: nat, name: string, number: string, query: string)
    requires |name| > 0 && Excludes(name, '/') && |number| > 0 && Excludes(number, '?')
    requires WellFormedQuery(query)
    requires StartsAt(u, p, ApiBuildPath)
    requires StartsAt(u, p + |ApiBuildPath|, name)
    requires StartsAt(u, p + |ApiBuildPath| + |name|, "/")
    requires StartsAt(u, p + |ApiBuildPath| + |name| + 1, number)
    requires StartsAt(u, p + |ApiBuildPath| + |name| + 1 + |number|, query)
    requires p + |ApiBuildPath| + |name| + 1 + |number| + |query| == |u|
    ensures MatchBuildPath(u, p) == Some(PathGroups(name, number, query))
  {
    var nameStart := p + |ApiBuildPath|;
    var nameEnd := nameStart + |name|;
    var numberEnd := nameEnd + 1 + |number|;
    NameSpan(u, nameStart, name);
    NumberSpan(u, nameEnd + 1, number, query);
    QueryAtExact(u, numberEnd, query);
    assert u[nameStart..nameEnd] == name;
    assert u[nameEnd + 1..numberEnd] == number;
    MatchBuildPathAt(u, p, nameEnd, numberEnd);
  }

  /** `[^/]+` stops right after a name that is followed by "/". */
  lemma NameSpan(u: string, at: nat, name: string)
    requires Excludes(name, '/') && StartsAt(u, at, name) && StartsAt(u, at + |name|, "/")
    ensures SpanUntil(u, at, '/') == at + |name|
  {
    StartsAtChar(u, at + |name|, '/');
    SpanOver(u, at, name, '/');
  }

  /** `[^?]+` stops right after a number that is followed by a well-formed query running to the end. */
  lemma NumberSpan(u: string, at: nat, number: string, query: string)
    requires Excludes(number, '?') && WellFormedQuery(query)
    requires StartsAt(u, at, number) && StartsAt(u, at + |number|, query) && at + |number| + |query| == |u|
    ensures SpanUntil(u, at, '?') == at + |number|
  {
    if query != "" {
      StartsAtIndex(u, at + |number|, query, 0);
    }
    SpanOver(u, at, number, '?');
  }

  /** Where the path prefix occurs and both spans are non-empty, the groups are the spanned slices. */
  lemma MatchBuildPathAt(u: string, p: nat, nameEnd: nat, numberEnd: nat)
    requires StartsAt(u, p, ApiBuildPath)
    requires p + |ApiBuildPath| < nameEnd < |u| && SpanUntil(u, p + |ApiBuildPath|, '/') == nameEnd
    requires nameEnd + 1 < numberEnd && SpanUntil(u, nameEnd + 1, '?') == numberEnd
    ensures MatchBuildPath(u, p)
         == Some(PathGroups(u[p + |ApiBuildPath|..nameEnd], u[nameEnd + 1..numberEnd], QueryAt(u, numberEnd)))
  {
  }

  lemma QueryAtExact(u: string, at: nat, query: string)
    requires WellFormedQuery(query) && StartsAt(u, at, query) && at + |query| == |u|
    ensures QueryAt(u, at) == query
  {
    if query != "" {
      StartsAtIndex(u, at, query, 0);
      assert query == [query[0]] + query[1..];
      StartsAtSplit(u, at, [query[0]], query[1..]);
      SpanOver(u, at + 1, query[1..], '\n');
    }
  }

  /** While the base is still inside a host free of "/" and line breaks, the lazy base keeps growing. */
  lemma {:induction false} LazyBaseSkipsHost(u: string, p: nat, q: nat)
    requires |Scheme| < p <= q < |u|
    requires forall k :: |Scheme| <= k < q ==> u[k] != '/' && u[k] != '\n'
    ensures MatchLazyBase(u, 0, p) == MatchLazyBase(u, 0, q)
    decreases q - p
  {
    if p < q {
      NotStartsAt(u, p, ApiBuildPath);
      LazyBaseSkipsHost(u, p + 1, q);
    }
  }

  /** Parsing undoes putting the groups together, for every well-formed match whose host is free
      of "/": `https://<host>/artifactory/api/build/<name>/<number>`, optionally followed by `?<query>`. */
  lemma ParseMatchedText(a: ApiUrl)
    requires WellFormed(a) && Excludes(a.baseUrl[|Scheme|..], '/')
    ensures ParseApiUrl(MatchedText(a)) == Some(a)
  {
    var u := MatchedText(a);
    var path := PathText(a.buildName, a.buildNumber, a.queryParams);
    var q := |a.baseUrl|;
    assert StartsAt(u, 0, a.baseUrl + path);
    StartsAtSplit(u, 0, a.baseUrl, path);
    assert StartsAt(u, 0, Scheme) by {
      assert u[..|Scheme|] == a.baseUrl[..|Scheme|];
    }
    forall k | |Scheme| <= k < q ensures u[k] != '/' && u[k] != '\n' {
      StartsAtIndex(u, 0, a.baseUrl, k);
      assert a.baseUrl[|Scheme|..][k - |Scheme|] == a.baseUrl[k];
    }
    LazyBaseSkipsHost(u, |Scheme| + 1, q);
    MatchBuildPathExact(u, q, a.buildName, a.buildNumber, a.queryParams);
    assert u[0..q] == a.baseUrl;
  }

  // ---------------------------------------------------------------------------
  // The link

  /** The link for an API URI and a start time in epoch nanoseconds (the part of convertToUiLink
      after the timestamp is parsed): the groups joined with "/" around "ui/builds", which is the
      evidence page of the match, with the start time in epoch milliseconds truncated toward zero.
      A URI without a match is rejected. */
  function BuildUiLink(apiUri: string, startedNanos: int): (r: Result<string>)
    ensures ParseApiUrl(apiUri).Some? ==>
              r == Ok(EvidencePage(ParseApiUrl(apiUri).value, Itoa(TruncDiv(startedNanos, 1_000_000))))
    ensures ParseApiUrl(apiUri).None? ==> r == Err(Failure(InvalidApiUrlMsg))
  {
    var epochMillis := Itoa(TruncDiv(startedNanos, 1_000_000));
    match ParseApiUrl(apiUri)
    case None => Err(Failure(InvalidApiUrlMsg))
    case Some(a) =>
      JoinedGroupsAreEvidencePage(a, epochMillis);
      Ok(JoinWith([a.baseUrl, "ui/builds", a.buildName, a.buildNumber, epochMillis, "Evidence" + a.queryParams], "/"))
  }

  /** The evidence page of a build in the UI, as a reader would write it. */
  function EvidencePage(a: ApiUrl, millis: string): string {
    a.baseUrl + "/ui/builds/" + a.buildName + "/" + a.buildNumber + "/" + millis + "/Evidence" + a.queryParams
  }

  lemma JoinThree(d: string, e: string, f: string, sep: string)
    ensures JoinWith([d, e, f], sep) == d + sep + (e + sep + f)
  {
    JoinWithCons(e, [f], sep);
    assert [e] + [f] == [e, f];
    JoinWithCons(d, [e, f], sep);
    assert [d] + [e, f] == [d, e, f];
  }

  lemma JoinFour(c: string, d: string, e: string, f: string, sep: string)
    ensures JoinWith([c, d, e, f], sep) == c + sep + (d + sep + (e + sep + f))
  {
    JoinThree(d, e, f, sep);
    JoinWithCons(c, [d, e, f], sep);
    assert [c] + [d, e, f] == [c, d, e, f];
  }

  lemma JoinFive(b: string, c: string, d: string, e: string, f: string, sep: string)
    ensures JoinWith([b, c, d, e, f], sep) == b + sep + (c + sep + (d + sep + (e + sep + f)))
  {
    JoinFour(c, d, e, f, sep);
    JoinWithCons(b, [c, d, e, f], sep);
    assert [b] + [c, d, e, f] == [b, c, d, e, f];
  }

  lemma JoinSix(a: string, b: string, c: string, d: string, e: string, f: string, sep: string)
    ensures JoinWith([a, b, c, d, e, f], sep) == a + sep + (b + sep + (c + sep + (d + sep + (e + sep + f))))
  {
    JoinFive(b, c, d, e, f, sep);
    JoinWithCons(a, [b, c, d, e, f], sep);
    assert [a] + [b, c, d, e, f] == [a, b, c, d, e, f];
  }

  /** The joined groups are the evidence page. */
  lemma JoinedGroupsAreEvidencePage(a: ApiUrl, millis: string)
    ensures JoinWith([a.baseUrl, "ui/builds", a.buildName, a.buildNumber, millis, "Evidence" + a.queryParams], "/")
            == EvidencePage(a, millis)
  {
    JoinSix(a.baseUrl, "ui/builds", a.buildName, a.buildNumber, millis, "Evidence" + a.queryParams, "/");
    NestedGroupsAreEvidencePage(a, millis);
  }

  /** The right-nested concatenation JoinSix produces, regrouped as the evidence page. */
  lemma NestedGroupsAreEvidencePage(a: ApiUrl, millis: string)
    ensures a.baseUrl + "/" + ("ui/builds" + "/" + (a.buildName + "/" + (a.buildNumber + "/" + (millis + "/" + ("Evidence" + a.queryParams)))))
            == EvidencePage(a, millis)
  {
    var tail := "Evidence" + a.queryParams;
    var t4 := millis + "/" + tail;
    var t3 := a.buildNumber + "/" + t4;
    var t2 := a.buildName + "/" + t3;
    var t1 := "ui/builds" + "/" + t2;
    assert "/" + t1 == "/ui/builds/" + t2;
    var m := a.baseUrl + "/ui/builds/" + a.buildName + "/" + a.buildNumber + "/" + millis;
    assert a.baseUrl + "/ui/builds/" + t2 == m + "/" + tail;
    assert m + "/" + tail == m + "/Evidence" + a.queryParams;
  }

  /** Groups put back together as the expression reads them, `https://<host>/artifactory/api/build/<name>/<number>`
      with an optional `?<query>`, become `https://<host>/ui/builds/<name>/<number>/<millis>/Evidence`
      followed by the same query. */
  lemma UiLinkOfMatchedText(a: ApiUrl, startedNanos: int)
    requires WellFormed(a) && Excludes(a.baseUrl[|Scheme|..], '/')
    ensures BuildUiLink(MatchedText(a), startedNanos) == Ok(EvidencePage(a, Itoa(TruncDiv(startedNanos, 1_000_000))))
  {
    ParseMatchedText(a);
  }

  /** convertToUiLink: `parseIso` stands for the ISO 8601 parser, giving epoch nanoseconds. A start
      time that does not parse is that parser's error; otherwise the link is the evidence page of
      the match in the record's URI, or "invalid API URL format" when there is none. */
  function ConvertToUiLink(info: BuildHistory.PublishedBuildInfo, parseIso: string -> Result<int>): (r: Result<string>)
    ensures parseIso(info.buildInfo.started).Err? ==> r == Err(parseIso(info.buildInfo.started).error)
    ensures parseIso(info.buildInfo.started).Ok? && ParseApiUrl(info.uri).Some? ==>
              r == Ok(EvidencePage(ParseApiUrl(info.uri).value, Itoa(TruncDiv(parseIso(info.buildInfo.started).value, 1_000_000))))
    ensures parseIso(info.buildInfo.started).Ok? && ParseApiUrl(info.uri).None? ==> r == Err(Failure(InvalidApiUrlMsg))
  {
    match parseIso(info.buildInfo.started)
    case Err(e) => Err(e)
    case Ok(nanos) => BuildUiLink(info.uri, nanos)
  }

  /** GetLastBuildLink: the link of the newest build in the run list. A failed lookup of that build,
      and a start time that does not parse, are passed on. */
  function GetLastBuildLink(svc: BuildHistory.Service, parseIso: string -> Result<int>): (r: Result<string>)
    ensures BuildHistory.GetPreviousBuild(svc, 0).Err? ==> r == Err(BuildHistory.GetPreviousBuild(svc, 0).error)
    ensures BuildHistory.GetPreviousBuild(svc, 0).Ok? ==>
              var started := BuildHistory.GetPreviousBuild(svc, 0).value.buildInfo.started;
              parseIso(started).Err? ==> r == Err(parseIso(started).error)
  {
    match BuildHistory.GetPreviousBuild(svc, 0)
    case Err(e) => Err(e)
    case Ok(published) => ConvertToUiLink(published, parseIso)
  }

  /** With no build to link to, GetLastBuildLink fails: the empty record has no API URI to rewrite. */
  lemma NoBuildNoLink(svc: BuildHistory.Service, parseIso: string -> Result<int>)
    requires BuildHistory.GetPreviousBuild(svc, 0) == Ok(BuildHistory.EmptyPublishedBuildInfo)
    ensures GetLastBuildLink(svc, parseIso).Err?
  {
    assert ParseApiUrl("") == None;
  }

  /** When the newest build is found and its start time parses, the link is the evidence page of the
      well-formed match in that build's API URI, at that start time in milliseconds; a URI without a
      match gives "invalid API URL format". */
  lemma LinkShape(svc: BuildHistory.Service, parseIso: string -> Result<int>)
    requires BuildHistory.GetPreviousBuild(svc, 0).Ok?
    requires parseIso(BuildHistory.GetPreviousBuild(svc, 0).value.buildInfo.started).Ok?
    ensures var published := BuildHistory.GetPreviousBuild(svc, 0).value;
            var nanos := parseIso(published.buildInfo.started).value;
            && (ParseApiUrl(published.uri).None? ==> GetLastBuildLink(svc, parseIso) == Err(Failure(InvalidApiUrlMsg)))
            && (ParseApiUrl(published.uri).Some? ==>
                  && WellFormed(ParseApiUrl(published.uri).value)
                  && GetLastBuildLink(svc, parseIso)
                     == Ok(EvidencePage(ParseApiUrl(published.uri).value, Itoa(TruncDiv(nanos, 1_000_000)))))
  {
  }
}
