/**
 * JiraApiRequestFactory: one builder per Jira REST call the stopwatch makes.
 * Each builder asks the request factory for a fresh request with a path and a
 * method; the three POST builders then set the JSON format, add a body and,
 * for a worklog, the estimate-adjustment query parameters.
 *
 * The paths are described by functions (IssuePath, JqlSearchPath) and the
 * worklog's query parameters by EstimateParameters; each of these has a
 * reference reader defined here (ParseIssuePath, ParseJqlSearchPath,
 * ParseEstimate) and a lemma that the reader recovers what was written.
 */
module JiraApiRequestFactory {
  import opened Optional
  import opened Text
  import opened RestRequests
  import JiraKeyHelpers

  /** C#'s int. */
  newtype int32 = x: int | -0x8000_0000 <= x < 0x8000_0000

  /** How posting a worklog changes the issue's remaining estimate. */
  datatype EstimateUpdateMethods = Leave | SetTo | ManualDecrease | Auto

  // ---------------------------------------------------------------------------
  // Issue paths: /rest/api/2/issue/{key}{suffix}, with the key trimmed

  const IssuePrefix: string := "/rest/api/2/issue/"

  /** The per-issue resources the builders address. */
  datatype IssueResource = Summary | Timetracking | Worklog | Comment | Transitions

  function ResourceSuffix(resource: IssueResource): string
  {
    match resource
    case Summary => ""
    case Timetracking => "?fields=timetracking"
    case Worklog => "/worklog"
    case Comment => "/comment"
    case Transitions => "/transitions"
  }

  /** String.Format("/rest/api/2/issue/{0}...", key.Trim()). */
  function IssuePath(key: string, resource: IssueResource): string
  {
    IssuePrefix + Trim(key) + ResourceSuffix(resource)
  }

  /** The characters that end the key segment of a path. */
  predicate IsSegmentStop(c: char)
  {
    c == '/' || c == '?'
  }

  /** The end of the path segment that starts at i. */
  function SegmentEnd(s: string, i: nat): (e: nat)
    requires i <= |s|
    ensures i <= e <= |s|
    ensures forall m :: i <= m < e ==> !IsSegmentStop(s[m])
    ensures e == |s| || IsSegmentStop(s[e])
    decreases |s| - i
  {
    if i < |s| && !IsSegmentStop(s[i]) then SegmentEnd(s, i + 1) else i
  }

  function ResourceOfSuffix(t: string): Option<IssueResource>
  {
    if t == "" then Some(Summary)
    else if t == "?fields=timetracking" then Some(Timetracking)
    else if t == "/worklog" then Some(Worklog)
    else if t == "/comment" then Some(Comment)
    else if t == "/transitions" then Some(Transitions)
    else None
  }

  /** A reference reader for issue paths: the key segment and the resource after it. */
  function ParseIssuePath(path: string): Option<(string, IssueResource)>
  {
    if |path| < |IssuePrefix| || path[..|IssuePrefix|] != IssuePrefix then None
    else
      var e := SegmentEnd(path, |IssuePrefix|);
      match ResourceOfSuffix(path[e..])
      case Some(resource) => Some((path[|IssuePrefix|..e], resource))
      case None => None
  }

  /** SegmentEnd stops at the first '/' or '?' from i, or at the end. */
  lemma {:induction false} SegmentEndAt(s: string, i: nat, e: nat)
    requires i <= e <= |s|
    requires forall m :: i <= m < e ==> !IsSegmentStop(s[m])
    requires e == |s| || IsSegmentStop(s[e])
    ensures SegmentEnd(s, i) == e
    decreases e - i
  {
    if i < e {
      SegmentEndAt(s, i + 1, e);
    }
  }

  /** Each resource is recognised from its suffix, which is empty or starts a new segment. */
  lemma ResourceSuffixRoundTrip(resource: IssueResource)
    ensures ResourceOfSuffix(ResourceSuffix(resource)) == Some(resource)
    ensures ResourceSuffix(resource) == [] || IsSegmentStop(ResourceSuffix(resource)[0])
    ensures var t := ResourceSuffix(resource); t == [] || !IsWhiteSpace(t[|t| - 1])
  {
  }

  /**
   * Reading an issue path back yields the trimmed key and the resource, as
   * long as the trimmed key has no '/' or '?' that would end its segment early.
   */
  lemma IssuePathRoundTrip(key: string, resource: IssueResource)
    requires forall c :: c in Trim(key) ==> !IsSegmentStop(c)
    ensures ParseIssuePath(IssuePath(key, resource)) == Some((Trim(key), resource))
  {
    var k, suffix := Trim(key), ResourceSuffix(resource);
    var path := IssuePrefix + k + suffix;
    var n := |IssuePrefix|;
    assert path[..n] == IssuePrefix;
    forall m | n <= m < n + |k| ensures !IsSegmentStop(path[m]) {
      assert path[m] == k[m - n];
      assert k[m - n] in k;
    }
    ResourceSuffixRoundTrip(resource);
    assert n + |k| < |path| ==> path[n + |k|] == suffix[0];
    SegmentEndAt(path, n, n + |k|);
    assert path[n + |k|..] == suffix;
    assert path[n..n + |k|] == k;
  }

  /**
   * The key is neither escaped nor checked: a key that itself ends in a
   * resource suffix turns the summary path into the path of that resource.
   * This is why IssuePathRoundTrip needs a key without '/' or '?'.
   */
  lemma UnescapedKeyChangesResource(key: string, resource: IssueResource)
    requires key != [] && Trim(key) == key
    requires forall c :: c in key ==> !IsSegmentStop(c)
    ensures IssuePath(key + ResourceSuffix(resource), Summary) == IssuePath(key, resource)
    ensures ParseIssuePath(IssuePath(key + ResourceSuffix(resource), Summary)) == Some((key, resource))
  {
    var t := key + ResourceSuffix(resource);
    TrimChanges(key);
    ResourceSuffixRoundTrip(resource);
    assert t[0] == key[0];
    TrimUnpadded(t);
    assert IssuePrefix + t + "" == IssuePrefix + key + ResourceSuffix(resource);
    IssuePathRoundTrip(key, resource);
  }

  /** The summary path of the key "A/worklog" is read back as the worklog of issue "A". */
  lemma SlashInKeyExample()
    ensures ParseIssuePath(IssuePath("A" + "/worklog", Summary)) == Some(("A", Worklog))
  {
    TrimUnpadded("A");
    UnescapedKeyChangesResource("A", Worklog);
  }

  /** The padded key "   FOO-42   " of the trimming cases in JiraApiRequestFactoryTest. */
  lemma PaddedKeyExample(resource: IssueResource)
    ensures IssuePath("   " + "FOO-42" + "   ", resource) == IssuePrefix + "FOO-42" + ResourceSuffix(resource)
  {
    TrimPadded("   ", "FOO-42", "   ");
  }

  /** A padded key addresses the same resource as the key without its padding. */
  lemma IssuePathIgnoresPadding(key: string, resource: IssueResource)
    ensures IssuePath(key, resource) == IssuePath(Trim(key), resource)
  {
    TrimIdempotent(key);
  }

  /** A key with white space at either end never appears in the path as it was given. */
  lemma IssuePathNeverEmbedsRawKey(key: string, resource: IssueResource)
    requires |key| > 0 && (IsWhiteSpace(key[0]) || IsWhiteSpace(key[|key| - 1]))
    ensures IssuePath(key, resource) != IssuePrefix + key + ResourceSuffix(resource)
  {
    TrimChanges(key);
  }

  // ---------------------------------------------------------------------------
  // JQL search path: the JQL text spliced in verbatim

  const JqlPathPrefix: string := "/rest/api/2/search/jql?jql="
  const JqlPathSuffix: string := "&maxResults=200&fields=key,summary,project,timetracking"

  function JqlSearchPath(jql: string): string
  {
    JqlPathPrefix + jql + JqlPathSuffix
  }

  /** The JQL text between the fixed prefix and suffix of a search path. */
  function ParseJqlSearchPath(path: string): Option<string>
  {
    var n, m := |JqlPathPrefix|, |JqlPathSuffix|;
    if |path| >= n + m && path[..n] == JqlPathPrefix && path[|path| - m..] == JqlPathSuffix
    then Some(path[n..|path| - m])
    else None
  }

  /** The JQL text comes back unchanged: the builder neither encodes nor alters it. */
  lemma JqlSearchPathRoundTrip(jql: string)
    ensures ParseJqlSearchPath(JqlSearchPath(jql)) == Some(jql)
  {
    var path := JqlSearchPath(jql);
    var n, m := |JqlPathPrefix|, |JqlPathSuffix|;
    assert path[..n] == JqlPathPrefix;
    assert path[|path| - m..] == JqlPathSuffix;
    assert path[n..|path| - m] == jql;
  }

  /** Different JQL texts give different search paths. */
  lemma JqlSearchPathInjective(jql1: string, jql2: string)
    requires JqlSearchPath(jql1) == JqlSearchPath(jql2)
    ensures jql1 == jql2
  {
    JqlSearchPathRoundTrip(jql1);
    JqlSearchPathRoundTrip(jql2);
  }

  // ---------------------------------------------------------------------------
  // Estimate adjustment: the worklog's query parameters

  /** The query parameters the worklog builder adds, in the order it adds them. */
  function EstimateParameters(adjustmentMethod: EstimateUpdateMethods, adjustmentValue: string): seq<QueryParameter>
  {
    match adjustmentMethod
    case Leave => [QueryParameter("adjustEstimate", "leave")]
    case SetTo => [QueryParameter("adjustEstimate", "new"), QueryParameter("newEstimate", adjustmentValue)]
    case ManualDecrease => [QueryParameter("adjustEstimate", "manual"), QueryParameter("reduceBy", adjustmentValue)]
    case Auto => [QueryParameter("adjustEstimate", "auto")]
  }

  /** What the Jira REST API does with the remaining estimate when a worklog is added. */
  datatype RemainingEstimate = Unchanged | SetToValue(newEstimate: string) | ReducedBy(reduceBy: string) | Automatic

  /** The adjustment the user chose, as the Jira API understands it. */
  function Requested(adjustmentMethod: EstimateUpdateMethods, adjustmentValue: string): RemainingEstimate
  {
    match adjustmentMethod
    case Leave => Unchanged
    case SetTo => SetToValue(adjustmentValue)
    case ManualDecrease => ReducedBy(adjustmentValue)
    case Auto => Automatic
  }

  /** The value of the first query parameter with this name. */
  function Lookup(parameters: seq<QueryParameter>, name: string): (r: Option<string>)
    ensures r.Some? <==> exists k :: 0 <= k < |parameters| && parameters[k].name == name
    ensures r.Some? ==> exists k :: 0 <= k < |parameters| && parameters[k] == QueryParameter(name, r.value)
  {
    if parameters == [] then None
    else if parameters[0].name == name then Some(parameters[0].value)
    else
      var r := Lookup(parameters[1..], name);
      assert forall k :: 1 <= k < |parameters| ==> parameters[k] == parameters[1..][k - 1];
      r
  }

  /**
   * A reference reader for adjustEstimate and the parameter that goes with it,
   * following the meaning the Jira REST API documents for them.
   */
  function ParseEstimate(parameters: seq<QueryParameter>): Option<RemainingEstimate>
  {
    match Lookup(parameters, "adjustEstimate")
    case None => None
    case Some(mode) =>
      if mode == "leave" then Some(Unchanged)
      else if mode == "auto" then Some(Automatic)
      else if mode == "new" then
        (match Lookup(parameters, "newEstimate") case Some(v) => Some(SetToValue(v)) case None => None)
      else if mode == "manual" then
        (match Lookup(parameters, "reduceBy") case Some(v) => Some(ReducedBy(v)) case None => None)
      else None
  }

  /** The reference reader recovers exactly the adjustment the user chose. */
  lemma EstimateParametersRoundTrip(adjustmentMethod: EstimateUpdateMethods, adjustmentValue: string)
    ensures ParseEstimate(EstimateParameters(adjustmentMethod, adjustmentValue))
            == Some(Requested(adjustmentMethod, adjustmentValue))
  {
    var ps := EstimateParameters(adjustmentMethod, adjustmentValue);
    assert Lookup(ps, "adjustEstimate") == Some(ps[0].value);
    if |ps| == 2 {
      assert ps[1..] == [ps[1]];
      assert Lookup(ps, ps[1].name) == Some(adjustmentValue);
    }
  }

  /**
   * The adjustment value reaches the request only for SetTo and
   * ManualDecrease: for Leave and Auto any two values give the same
   * parameters, for the other two any two different values do not.
   */
  lemma EstimateValueUsedOnlyBySetToAndManualDecrease(adjustmentMethod: EstimateUpdateMethods, v1: string, v2: string)
    requires v1 != v2
    ensures EstimateParameters(adjustmentMethod, v1) == EstimateParameters(adjustmentMethod, v2)
            <==> adjustmentMethod == Leave || adjustmentMethod == Auto
  {
    if adjustmentMethod == SetTo || adjustmentMethod == ManualDecrease {
      assert EstimateParameters(adjustmentMethod, v1)[1].value == v1;
    }
  }

  /** Different choices of adjustment give different query parameters. */
  lemma EstimateParametersInjective(m1: EstimateUpdateMethods, v1: string, m2: EstimateUpdateMethods, v2: string)
    requires EstimateParameters(m1, v1) == EstimateParameters(m2, v2)
    ensures Requested(m1, v1) == Requested(m2, v2)
  {
    EstimateParametersRoundTrip(m1, v1);
    EstimateParametersRoundTrip(m2, v2);
  }

  // ---------------------------------------------------------------------------
  // The builders

  /** GET /rest/auth/1/session. */
  method CreateValidateSessionRequest() returns (request: RestRequest)
    ensures fresh(request)
    ensures request.path == "/rest/auth/1/session" && request.requestMethod == Get && request.IsBare()
  {
    request := new RestRequest("/rest/auth/1/session", Get);
  }

  /** GET /rest/api/2/filter/favourite. */
  method CreateGetFavoriteFiltersRequest() returns (request: RestRequest)
    ensures fresh(request)
    ensures request.path == "/rest/api/2/filter/favourite" && request.requestMethod == Get && request.IsBare()
  {
    request := new RestRequest("/rest/api/2/filter/favourite", Get);
  }

  /** GET the issues a JQL query selects, at most 200, with four fields each. */
  method CreateGetIssuesByJQLRequest(jql: string) returns (request: RestRequest)
    ensures fresh(request)
    ensures request.path == JqlSearchPath(jql) && request.requestMethod == Get && request.IsBare()
  {
    request := new RestRequest(JqlPathPrefix + jql + JqlPathSuffix, Get);
  }

  /** GET an issue. */
  method CreateGetIssueSummaryRequest(key: string) returns (request: RestRequest)
    ensures fresh(request)
    ensures request.path == IssuePath(key, Summary) && request.requestMethod == Get && request.IsBare()
  {
    request := new RestRequest(IssuePrefix + Trim(key), Get);
  }

  /** GET an issue's time-tracking field. */
  method CreateGetIssueTimetrackingRequest(key: string) returns (request: RestRequest)
    ensures fresh(request)
    ensures request.path == IssuePath(key, Timetracking) && request.requestMethod == Get && request.IsBare()
  {
    request := new RestRequest(IssuePrefix + Trim(key) + "?fields=timetracking", Get);
  }

  /**
   * POST a worklog. JiraTimeHelpers is not part of this model: its two
   * formatting functions are parameters, over whatever TimeSpan and
   * DateTimeOffset are.
   */
  method CreatePostWorklogRequest<TimeSpan, DateTimeOffset>(
    key: string, started: DateTimeOffset, time: TimeSpan, comment: string,
    adjustmentMethod: EstimateUpdateMethods, adjustmentValue: string,
    timeSpanToJiraTime: TimeSpan -> string, dateTimeToJiraDateTime: DateTimeOffset -> string)
    returns (request: RestRequest)
    ensures fresh(request)
    ensures request.path == IssuePath(key, Worklog) && request.requestMethod == Post
    ensures request.requestFormat == Json
    ensures request.body == Some(JObject([
                                   Member("timeSpent", JString(timeSpanToJiraTime(time))),
                                   Member("started", JString(dateTimeToJiraDateTime(started))),
                                   Member("comment", JString(comment))]))
    ensures request.queryParameters == EstimateParameters(adjustmentMethod, adjustmentValue)
  {
    request := new RestRequest(IssuePrefix + Trim(key) + "/worklog", Post);
    request.SetRequestFormat(Json);
    request.AddBody(JObject([
                      Member("timeSpent", JString(timeSpanToJiraTime(time))),
                      Member("started", JString(dateTimeToJiraDateTime(started))),
                      Member("comment", JString(comment))]));
    match adjustmentMethod {
      case Leave =>
        request.AddQueryParameter("adjustEstimate", "leave");
      case SetTo =>
        request.AddQueryParameter("adjustEstimate", "new");
        request.AddQueryParameter("newEstimate", adjustmentValue);
      case ManualDecrease =>
        request.AddQueryParameter("adjustEstimate", "manual");
        request.AddQueryParameter("reduceBy", adjustmentValue);
      case Auto =>
        request.AddQueryParameter("adjustEstimate", "auto");
    }
  }

  /** GET /rest/api/3/configuration (the one call on version 3 of the API). */
  method CreateGetConfigurationRequest() returns (request: RestRequest)
    ensures fresh(request)
    ensures request.path == "/rest/api/3/configuration" && request.requestMethod == Get && request.IsBare()
  {
    request := new RestRequest("/rest/api/3/configuration", Get);
  }

  /** POST a comment on an issue. */
  method CreatePostCommentRequest(key: string, comment: string) returns (request: RestRequest)
    ensures fresh(request)
    ensures request.path == IssuePath(key, Comment) && request.requestMethod == Post
    ensures request.requestFormat == Json
    ensures request.body == Some(JObject([Member("body", JString(comment))]))
    ensures request.queryParameters == []
  {
    request := new RestRequest(IssuePrefix + Trim(key) + "/comment", Post);
    request.SetRequestFormat(Json);
    request.AddBody(JObject([Member("body", JString(comment))]));
  }

  /** GET the transitions available on an issue. */
  method CreateGetAvailableTransitions(key: string) returns (request: RestRequest)
    ensures fresh(request)
    ensures request.path == IssuePath(key, Transitions) && request.requestMethod == Get && request.IsBare()
  {
    request := new RestRequest(IssuePrefix + Trim(key) + "/transitions", Get);
  }

  /** POST a transition of an issue. */
  method CreateDoTransition(key: string, transitionId: int32) returns (request: RestRequest)
    ensures fresh(request)
    ensures request.path == IssuePath(key, Transitions) && request.requestMethod == Post
    ensures request.requestFormat == Json
    ensures request.body == Some(JObject([Member("transition", JObject([Member("id", JInt(transitionId as int))]))]))
    ensures request.queryParameters == []
  {
    request := new RestRequest(IssuePrefix + Trim(key) + "/transitions", Post);
    request.SetRequestFormat(Json);
    request.AddBody(JObject([Member("transition", JObject([Member("id", JInt(transitionId as int))]))]));
  }

  // ---------------------------------------------------------------------------
  // Keys taken from pasted text

  /** A key has no white space at its ends and no character that ends a path segment. */
  lemma KeyIsPathSafe(t: string)
    requires JiraKeyHelpers.IsKey(t)
    ensures Trim(t) == t
    ensures forall c :: c in t ==> !IsSegmentStop(c)
  {
    var k :| JiraKeyHelpers.IsKeySplit(t, k);
    assert JiraKeyHelpers.IsKeyChar(t[0]) && !IsWhiteSpace(t[0]);
    assert JiraKeyHelpers.IsDigit(t[|t| - 1]) && !IsWhiteSpace(t[|t| - 1]);
    TrimUnpadded(t);
    forall c | c in t ensures !IsSegmentStop(c) {
      var m :| 0 <= m < |t| && t[m] == c;
      assert m < k ==> JiraKeyHelpers.IsKeyChar(t[m]);
      assert k < m ==> JiraKeyHelpers.IsDigit(t[m]);
    }
  }

  /**
   * A key extracted from pasted text needs no trimming and addresses the
   * issue it names: the reference reader recovers that very key from every issue path.
   */
  lemma ExtractedKeyAddressesIssue(text: string, resource: IssueResource)
    requires JiraKeyHelpers.HasKey(text)
    ensures var key := JiraKeyHelpers.ParseUrlToKey(text);
            Trim(key) == key && ParseIssuePath(IssuePath(key, resource)) == Some((key, resource))
  {
    var key := JiraKeyHelpers.ParseUrlToKey(text);
    JiraKeyHelpers.ParseUrlToKeyIsKey(text);
    KeyIsPathSafe(key);
    IssuePathRoundTrip(key, resource);
  }
}
