/** The pure parts of services/githubService.js: the merge-direction table,
    hotfix branch and pull-request naming, the outcome record of
    `processMerge`, the shaping of `checkRepositoryStatus` and `makeAPICall`,
    and the token state of the service object. Every GitHub REST call is an
    input: the reply it gave (`Ok` with its data, or `Err` with the error's
    HTTP status and message). */
module GitHub {
  import opened Wrappers
  import opened JsText
  import opened Decimal

  const MasterToRelease := "master-to-release"
  const ReleaseToDevelop := "release-to-develop"

  const TokenNotConfigured := "GitHub 토큰이 설정되지 않았습니다. 먼저 토큰을 설정해주세요."
  const UnsupportedDirectionPrefix := "지원하지 않는 머지 방향: "
  const UnsupportedMethodPrefix := "지원하지 않는 HTTP 메서드: "

  /** A thrown error: the HTTP status when it carries one, and its message. */
  datatype ApiError = ApiError(status: Option<int>, message: string)

  type Reply<T> = Result<T, ApiError>

  // ---------------------------------------------------------------------
  // Dates as `new Date().toISOString().slice(0, 10)` prints them
  // ---------------------------------------------------------------------

  /** A UTC calendar date. */
  datatype CalendarDate = CalendarDate(year: nat, month: nat, day: nat)

  /** Dates whose ISO form has a four-digit year. */
  predicate ValidDate(d: CalendarDate) {
    d.year <= 9999 && 1 <= d.month <= 12 && 1 <= d.day <= 31
  }

  /** `YYYY-MM-DD`. */
  function IsoDate(d: CalendarDate): (s: string)
    requires ValidDate(d)
    ensures |s| == 10 && s[4] == '-' && s[7] == '-'
    ensures AllDigits(s[..4]) && AllDigits(s[5..7]) && AllDigits(s[8..])
    ensures RadixValue(s[..4], 10) == d.year
    ensures RadixValue(s[5..7], 10) == d.month
    ensures RadixValue(s[8..], 10) == d.day
  {
    var s := Fixed(d.year, 4) + "-" + Fixed(d.month, 2) + "-" + Fixed(d.day, 2);
    assert s[..4] == Fixed(d.year, 4) && s[5..7] == Fixed(d.month, 2) && s[8..] == Fixed(d.day, 2);
    FixedValue(d.year, 4);
    FixedValue(d.month, 2);
    FixedValue(d.day, 2);
    s
  }

  /** The ISO date with its dashes removed: `YYYYMMDD`. */
  function CompactDate(d: CalendarDate): (s: string)
    requires ValidDate(d)
    ensures |s| == 8 && AllDigits(s)
    ensures RadixValue(s[..4], 10) == d.year
    ensures RadixValue(s[4..6], 10) == d.month
    ensures RadixValue(s[6..], 10) == d.day
  {
    var y, m, dd := Fixed(d.year, 4), Fixed(d.month, 2), Fixed(d.day, 2);
    var s := RemoveChar(IsoDate(d), '-');
    CompactDateParts(d);
    assert s[..4] == y && s[4..6] == m && s[6..] == dd;
    FixedValue(d.year, 4);
    FixedValue(d.month, 2);
    FixedValue(d.day, 2);
    s
  }

  lemma CompactDateParts(d: CalendarDate)
    requires ValidDate(d)
    ensures RemoveChar(IsoDate(d), '-') == Fixed(d.year, 4) + Fixed(d.month, 2) + Fixed(d.day, 2)
  {
    RemoveDashes(Fixed(d.year, 4), Fixed(d.month, 2), Fixed(d.day, 2));
  }

  /** Removing the dashes of `y-m-d` made of digit fields gives the fields side by side. */
  lemma RemoveDashes(y: string, m: string, dd: string)
    requires AllDigits(y) && AllDigits(m) && AllDigits(dd)
    ensures RemoveChar(y + "-" + m + "-" + dd, '-') == y + m + dd
  {
    var dash := "-";
    assert RemoveChar(dash, '-') == [] by {
      assert dash[1..] == [];
    }
    DigitsHaveNoDash(y);
    DigitsHaveNoDash(m);
    DigitsHaveNoDash(dd);
    var a1 := y + dash;
    RemoveCharAppend(y, dash, '-');
    assert RemoveChar(a1, '-') == y;
    var a2 := a1 + m;
    RemoveCharAppend(a1, m, '-');
    assert RemoveChar(a2, '-') == y + m;
    var a3 := a2 + dash;
    RemoveCharAppend(a2, dash, '-');
    assert RemoveChar(a3, '-') == y + m;
    RemoveCharAppend(a3, dd, '-');
  }

  lemma DigitsHaveNoDash(s: string)
    requires AllDigits(s)
    ensures RemoveChar(s, '-') == s
  {
    assert forall i :: 0 <= i < |s| ==> s[i] != '-';
    RemoveAbsentChar(s, '-');
  }

  // ---------------------------------------------------------------------
  // Directions and names
  // ---------------------------------------------------------------------

  /** The (base, target) branches of a merge direction; `None` for an
      unsupported direction. */
  function DirectionBranches(direction: string): (r: Option<(string, string)>)
    ensures r.Some? <==> direction == MasterToRelease || direction == ReleaseToDevelop
    ensures r.Some? ==> direction == r.value.0 + "-to-" + r.value.1
    ensures r.Some? ==> r.value.0 != r.value.1
  {
    if direction == MasterToRelease then Some(("master", "release"))
    else if direction == ReleaseToDevelop then Some(("release", "develop"))
    else None
  }

  /** The branch name up to the date. */
  function HotfixPrefix(base: string, target: string): string {
    "hotfix-" + base + "/merge-" + base + "-into-" + target + "-"
  }

  /** `hotfix-<base>/merge-<base>-into-<target>-<YYYYMMDD>`. */
  function HotfixBranchName(base: string, target: string, date: CalendarDate): (name: string)
    requires ValidDate(date)
    ensures var p := HotfixPrefix(base, target);
            |name| == |p| + 8 && name[..|p|] == p
            && AllDigits(name[|p|..])
            && RadixValue(name[|p|..][..4], 10) == date.year
            && RadixValue(name[|p|..][4..6], 10) == date.month
            && RadixValue(name[|p|..][6..], 10) == date.day
  {
    var p := HotfixPrefix(base, target);
    var c := CompactDate(date);
    assert (p + c)[|p|..] == c;
    p + c
  }

  /** Two hotfix branches of one merge direction have the same name only on the same day. */
  lemma HotfixBranchNameInjective(base: string, target: string, d1: CalendarDate, d2: CalendarDate)
    requires ValidDate(d1) && ValidDate(d2)
    requires HotfixBranchName(base, target, d1) == HotfixBranchName(base, target, d2)
    ensures d1 == d2
  {
  }

  /** `[Auto] Merge <base> into <target> - <YYYY-MM-DD>`. */
  function PullRequestTitle(base: string, target: string, date: CalendarDate): (t: string)
    requires ValidDate(date)
    ensures var p := "[Auto] Merge " + base + " into " + target + " - ";
            |t| == |p| + 10 && t[..|p|] == p
            && AllDigits(t[|p|..][..4]) && AllDigits(t[|p|..][5..7]) && AllDigits(t[|p|..][8..])
            && RadixValue(t[|p|..][..4], 10) == date.year
            && RadixValue(t[|p|..][5..7], 10) == date.month
            && RadixValue(t[|p|..][8..], 10) == date.day
  {
    var p := "[Auto] Merge " + base + " into " + target + " - ";
    var iso := IsoDate(date);
    assert (p + iso)[|p|..] == iso;
    p + iso
  }

  function PullRequestBody(base: string, target: string, date: CalendarDate): string
    requires ValidDate(date)
  {
    "자동 주간 머지 작업\n\n- Source: " + base + "\n- Target: " + target + "\n- Date: " + IsoDate(date)
  }

  // ---------------------------------------------------------------------
  // Branch creation and the merge of one repository
  // ---------------------------------------------------------------------

  /** `_checkToken()` followed by a branch lookup: without a token it fails
      before the request is sent. */
  function GetBranch(tokenConfigured: bool, reply: Reply<string>): (r: Reply<string>)
    ensures !tokenConfigured ==> r == Err(ApiError(None, TokenNotConfigured))
    ensures tokenConfigured ==> r == reply
  {
    if !tokenConfigured then Err(ApiError(None, TokenNotConfigured)) else reply
  }

  /** The `createRef` request: the ref to create and the commit it points to. */
  datatype RefRequest = RefRequest(ref: string, sha: string)

  /** `createHotfixBranch(repo, base, target)`: look up the base branch
      (`baseReply` is its head commit), then create the hotfix ref on it. An
      error with status 422 (the ref already exists), raised by either call,
      still yields the branch name; any other error propagates, and so does
      the missing-token error, raised before the `try`. */
  function CreateHotfixBranch(tokenConfigured: bool, base: string, target: string, date: CalendarDate,
                              baseReply: Reply<string>, createRef: RefRequest -> Reply<()>): (r: Reply<string>)
    requires ValidDate(date)
    ensures r.Ok? ==> r.value == HotfixBranchName(base, target, date)
    ensures !tokenConfigured ==> r == Err(ApiError(None, TokenNotConfigured))
    ensures tokenConfigured && baseReply.Err? ==>
              (r.Ok? <==> baseReply.error.status == Some(422))
              && (r.Err? ==> r.error == baseReply.error)
    ensures tokenConfigured && baseReply.Ok? ==>
              var created := createRef(RefRequest("refs/heads/" + HotfixBranchName(base, target, date), baseReply.value));
              (r.Ok? <==> created.Ok? || created.error.status == Some(422))
              && (r.Err? ==> r.error == created.error)
  {
    if !tokenConfigured then Err(ApiError(None, TokenNotConfigured))
    else
      var name := HotfixBranchName(base, target, date);
      var created := match GetBranch(tokenConfigured, baseReply)
        case Err(e) => Err(e)
        case Ok(sha) => createRef(RefRequest("refs/heads/" + name, sha));
      if created.Ok? || created.error.status == Some(422) then Ok(name)
      else Err(created.error)
  }

  /** The pull request `pulls.create` is asked for. */
  datatype PullRequestSpec = PullRequestSpec(title: string, head: string, base: string, body: string)

  /** The part of a created pull request that is kept. */
  datatype PullRequestRef = PullRequestRef(number: int, url: string)

  /** What `processMerge` resolves to for one repository. */
  datatype MergeRecord =
    | Completed(repo: string, direction: string, hotfixBranch: string, pullRequest: PullRequestRef, timestamp: string)
    | Failed(repo: string, direction: string, error: string, timestamp: string)

  /** `processMerge(repo, direction)`. It reads the clock three times: the
      title date (`titleDate`), the branch date inside `createHotfixBranch`
      (`branchDate`) and the record's instant (`finishedAt`); the remote
      calls are the base-branch reply, the ref creation and the pull-request
      creation. Every error is caught and turned into a failed record. */
  function ProcessMerge(tokenConfigured: bool, repo: string, direction: string,
                        titleDate: CalendarDate, branchDate: CalendarDate, finishedAt: string,
                        baseReply: Reply<string>, createRef: RefRequest -> Reply<()>,
                        createPull: PullRequestSpec -> Reply<PullRequestRef>): (r: MergeRecord)
    requires ValidDate(titleDate) && ValidDate(branchDate)
    ensures r.repo == repo && r.direction == direction && r.timestamp == finishedAt
    ensures DirectionBranches(direction).None? ==>
              r == Failed(repo, direction, UnsupportedDirectionPrefix + direction, finishedAt)
    ensures DirectionBranches(direction).Some? && !tokenConfigured ==>
              r == Failed(repo, direction, TokenNotConfigured, finishedAt)
    ensures r.Completed? ==>
              var (base, target) := DirectionBranches(direction).value;
              && r.hotfixBranch == HotfixBranchName(base, target, branchDate)
              && createPull(PullRequestSpec(PullRequestTitle(base, target, titleDate), r.hotfixBranch, target,
                                            PullRequestBody(base, target, titleDate)))
                 == Ok(r.pullRequest)
  {
    match DirectionBranches(direction)
    case None => Failed(repo, direction, UnsupportedDirectionPrefix + direction, finishedAt)
    case Some((base, target)) =>
      match CreateHotfixBranch(tokenConfigured, base, target, branchDate, baseReply, createRef)
      case Err(e) => Failed(repo, direction, e.message, finishedAt)
      case Ok(branch) =>
        var spec := PullRequestSpec(PullRequestTitle(base, target, titleDate), branch, target,
                                    PullRequestBody(base, target, titleDate));
        match createPull(spec)
        case Err(e) => Failed(repo, direction, e.message, finishedAt)
        case Ok(pr) => Completed(repo, direction, branch, pr, finishedAt)
  }

  /** With the token set and every remote call succeeding, a supported
      direction completes with the hotfix branch and the created pull request. */
  lemma ProcessMergeSucceeds(repo: string, direction: string, titleDate: CalendarDate, branchDate: CalendarDate,
                             finishedAt: string, sha: string, pr: PullRequestRef)
    requires ValidDate(titleDate) && ValidDate(branchDate)
    requires DirectionBranches(direction).Some?
    ensures var (base, target) := DirectionBranches(direction).value;
            ProcessMerge(true, repo, direction, titleDate, branchDate, finishedAt, Ok(sha),
                         _ => Ok(()), _ => Ok(pr))
            == Completed(repo, direction, HotfixBranchName(base, target, branchDate), pr, finishedAt)
  {
  }

  // ---------------------------------------------------------------------
  // checkRepositoryStatus
  // ---------------------------------------------------------------------

  /** The head commits of master, release and develop (`None` for a lookup that failed). */
  datatype RepositoryStatus = RepositoryStatus(repo: string, master: Option<string>, release: Option<string>,
                                               develop: Option<string>, status: string)

  /** `checkRepositoryStatus(repo)` given the three branch replies: a failed
      lookup, including one refused for lack of a token, becomes `None`, and
      the status is `ready`. */
  function CheckRepositoryStatus(tokenConfigured: bool, repo: string,
                                 master: Reply<string>, release: Reply<string>, develop: Reply<string>)
    : (r: RepositoryStatus)
    ensures r.repo == repo && r.status == "ready"
    ensures r.master.Some? <==> tokenConfigured && master.Ok?
    ensures r.master.Some? ==> r.master.value == master.value
    ensures r.release.Some? <==> tokenConfigured && release.Ok?
    ensures r.release.Some? ==> r.release.value == release.value
    ensures r.develop.Some? <==> tokenConfigured && develop.Ok?
    ensures r.develop.Some? ==> r.develop.value == develop.value
  {
    RepositoryStatus(repo, ShaOrNull(GetBranch(tokenConfigured, master)),
                     ShaOrNull(GetBranch(tokenConfigured, release)),
                     ShaOrNull(GetBranch(tokenConfigured, develop)), "ready")
  }

  /** `getBranch(...).catch(() => null)` followed by `branch ? branch.commit.sha : null`. */
  function ShaOrNull(reply: Reply<string>): Option<string> {
    if reply.Ok? then Some(reply.value) else None
  }

  // ---------------------------------------------------------------------
  // makeAPICall
  // ---------------------------------------------------------------------

  /** `endpoint.startsWith('/') ? endpoint : '/' + endpoint`. */
  function NormalizeEndpoint(endpoint: string): (url: string)
    ensures |url| >= 1 && url[0] == '/'
    ensures StartsWith(endpoint, "/") ==> url == endpoint
    ensures !StartsWith(endpoint, "/") ==> url[1..] == endpoint
  {
    if StartsWith(endpoint, "/") then endpoint else "/" + endpoint
  }

  lemma NormalizeEndpointIdempotent(endpoint: string)
    ensures NormalizeEndpoint(NormalizeEndpoint(endpoint)) == NormalizeEndpoint(endpoint)
  {
    var url := NormalizeEndpoint(endpoint);
    assert StartsWith(url, "/");
  }

  predicate IsSupportedMethod(upper: string) {
    upper == "GET" || upper == "POST" || upper == "PUT" || upper == "DELETE"
  }

  /** The route string passed to `octokit.request`, or `None` when the method
      is not one of the four supported ones. */
  function Route(verb: string, url: string): (r: Option<string>)
    ensures r.Some? <==> IsSupportedMethod(ToUpperAscii(verb))
    ensures r.Some? ==> r.value == ToUpperAscii(verb) + " " + url
  {
    var upper := ToUpperAscii(verb);
    if IsSupportedMethod(upper) then Some(upper + " " + url) else None
  }

  /** The method is matched case-insensitively: a method routes as its upper-case spelling does. */
  lemma RouteCaseInsensitive(verb: string, url: string)
    ensures Route(ToUpperAscii(verb), url) == Route(verb, url)
  {
    ToUpperAsciiIdempotent(verb);
  }

  /** A response: its status, the three rate-limit headers (absent or text) and the body. */
  datatype Response = Response(status: int, limitHeader: Option<string>, remainingHeader: Option<string>,
                               resetHeader: Option<string>, data: string)

  datatype RateLimit = RateLimit(limit: int, remaining: int, reset: int)

  datatype ApiCallResult = ApiCallResult(status: int, limitHeader: Option<string>, remainingHeader: Option<string>,
                                         resetHeader: Option<string>, data: string, rateLimit: RateLimit)

  /** `makeAPICall(endpoint, method)` with `request` the reply to each route. */
  function MakeApiCall(endpoint: string, verb: string, request: string -> Reply<Response>): (r: Reply<ApiCallResult>)
    ensures !IsSupportedMethod(ToUpperAscii(verb)) ==>
              r == Err(ApiError(None, UnsupportedMethodPrefix + verb))
    ensures IsSupportedMethod(ToUpperAscii(verb)) ==>
              var reply := request(ToUpperAscii(verb) + " " + NormalizeEndpoint(endpoint));
              (reply.Err? ==> r == Err(reply.error))
              && (reply.Ok? ==>
                    r.Ok? && r.value.status == reply.value.status && r.value.data == reply.value.data
                    && r.value.rateLimit == RateLimit(ParseIntOrZero(reply.value.limitHeader),
                                                      ParseIntOrZero(reply.value.remainingHeader),
                                                      ParseIntOrZero(reply.value.resetHeader)))
  {
    match Route(verb, NormalizeEndpoint(endpoint))
    case None => Err(ApiError(None, UnsupportedMethodPrefix + verb))
    case Some(route) =>
      match request(route)
      case Err(e) => Err(e)
      case Ok(resp) =>
        Ok(ApiCallResult(resp.status, resp.limitHeader, resp.remainingHeader, resp.resetHeader, resp.data,
                         RateLimit(ParseIntOrZero(resp.limitHeader), ParseIntOrZero(resp.remainingHeader),
                                   ParseIntOrZero(resp.resetHeader))))
  }

  // ---------------------------------------------------------------------
  // The service object's token state
  // ---------------------------------------------------------------------

  class GitHubService {
    var token: Option<string>
    var isConfigured: bool

    /** `new GitHubService(token)`: the given token when truthy, else `GITHUB_TOKEN`. */
    constructor (given: Option<string>, envToken: Option<string>)
      ensures token == (if Truthy(given) then given else envToken)
      ensures IsTokenConfigured() <==> Truthy(given) || Truthy(envToken)
    {
      token := if Truthy(given) then given else envToken;
      isConfigured := Truthy(if Truthy(given) then given else envToken);
    }

    /** `isTokenConfigured()`. */
    predicate IsTokenConfigured()
      reads this
    {
      isConfigured && Truthy(token)
    }

    /** `setToken(t)`: afterwards the service counts as configured exactly when `t` is not empty. */
    method SetToken(t: string)
      modifies this
      ensures token == Some(t) && isConfigured
      ensures IsTokenConfigured() <==> t != ""
    {
      token := Some(t);
      isConfigured := true;
    }

    /** `_checkToken()`: fails exactly when the service is not configured. */
    function CheckToken(): (r: Result<(), string>)
      reads this
      ensures r.Err? <==> !(isConfigured && token.Some? && token.value != "")
      ensures r.Err? ==> r.error == TokenNotConfigured
    {
      if IsTokenConfigured() then Ok(()) else Err(TokenNotConfigured)
    }
  }
}
