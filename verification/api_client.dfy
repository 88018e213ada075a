/**
 * The authenticated request executor and the calls built on it.
 *
 * The transport is a script: the `Exchange` each successive `fetch` yields.
 * The signed-in user is an explicit `Option<Identity>` instead of a global.
 * The configured base URL, which only prefixes every path, is not modelled.
 */
module ApiClient {
  import opened Wrappers
  import opened Strings
  import opened Browser
  import opened AppraisalTypes
  import Utils

  /** The options of one call; `{}` means a GET that requires authentication. */
  datatype RequestOptions = RequestOptions(verb: string, body: Option<AnalyzeRequest>, requireAuth: bool)

  const DefaultOptions := RequestOptions("GET", None, true)

  const ContentType := "Content-Type"
  const Authorization := "Authorization"

  /** Why a call threw: a non-2xx status, a failed `fetch`, or a 2xx body that is not JSON. */
  datatype ApiError = HttpFailure(message: string) | NetworkFailure(message: string) | ParseFailure(message: string)

  /**
   * Everything one call did: the requests it sent, the forced token refreshes,
   * its outcome, and the signed-in identity it leaves behind (a forced refresh
   * updates the token the user's later calls read).
   */
  datatype Attempts<T> = Attempts(sent: seq<Request>, refreshes: nat, result: Result<T, ApiError>, user: Option<Identity>)

  /** The headers of one attempt. */
  function RequestHeaders(requireAuth: bool, user: Option<Identity>): (h: map<string, string>)
    ensures ContentType in h && h[ContentType] == "application/json"
    ensures Authorization in h <==> requireAuth && user.Some?
    ensures Authorization in h ==> h[Authorization] == "Bearer " + user.value.token
    ensures forall k :: k in h ==> k == ContentType || k == Authorization
  {
    var base := map[ContentType := "application/json"];
    if requireAuth && user.Some? then base[Authorization := "Bearer " + user.value.token] else base
  }

  /** The message of the error thrown for a non-2xx response. */
  function FailureMessage<T>(status: int, body: Body<T>): (m: string)
    ensures body.Malformed? ==> m == "API request failed"
    ensures body.Json? && Truthy(body.detail) ==> m == body.detail.value
    ensures body.Json? && !Truthy(body.detail) ==> m == "HTTP " + IntToDecimal(status)
    ensures m != ""
  {
    var detail := if body.Malformed? then Some("API request failed") else body.detail;
    if Truthy(detail) then detail.value else "HTTP " + IntToDecimal(status)
  }

  /** How a call ends on an exchange it does not retry. */
  function Settle<T>(x: Exchange<T>): (r: Result<T, ApiError>)
    ensures r.Ok? <==> x.Reply? && IsOk(x.status) && x.body.Json?
    ensures r.Ok? ==> r.value == x.body.value
    ensures x.Unreachable? ==> r == Err(NetworkFailure(x.reason))
    ensures x.Reply? && !IsOk(x.status) ==> r == Err(HttpFailure(FailureMessage(x.status, x.body)))
    ensures x.Reply? && IsOk(x.status) && x.body.Malformed? ==> r == Err(ParseFailure(x.body.reason))
  {
    match x
    case Unreachable(reason) => Err(NetworkFailure(reason))
    case Reply(status, body) =>
      if !IsOk(status) then Err(HttpFailure(FailureMessage(status, body)))
      else match body
        case Malformed(reason) => Err(ParseFailure(reason))
        case Json(value, _) => Ok(value)
  }

  /**
   * `apiRequest(endpoint, options, isRetry)` with the user `user`, where the
   * k-th `fetch` yields `transport[k]`. A first 401 while a user exists forces
   * one token refresh and repeats the call once, flagged as a retry.
   */
  function Execute<T>(endpoint: string, options: RequestOptions, user: Option<Identity>, isRetry: bool,
                      transport: seq<Exchange<T>>): (a: Attempts<T>)
    requires |transport| >= if isRetry then 1 else 2
    ensures 1 <= |a.sent| <= 2 && |a.sent| == a.refreshes + 1
    ensures a.sent[0] == Request(endpoint, options.verb, RequestHeaders(options.requireAuth, user), options.body)
    ensures a.refreshes == 1 <==>
      !isRetry && user.Some? && transport[0].Reply? && transport[0].status == 401
    ensures a.refreshes == 1 ==>
      a.sent[1] == Request(endpoint, options.verb, RequestHeaders(options.requireAuth, Some(Refreshed(user.value))), options.body)
    ensures a.result == Settle(transport[|a.sent| - 1])
    ensures a.user == if a.refreshes == 1 then Some(Refreshed(user.value)) else user
    decreases if isRetry then 0 else 1
  {
    var request := Request(endpoint, options.verb, RequestHeaders(options.requireAuth, user), options.body);
    var x := transport[0];
    if x.Reply? && x.status == 401 && !isRetry && user.Some? then
      var retry := Execute(endpoint, options, Some(Refreshed(user.value)), true, transport[1..]);
      Attempts([request] + retry.sent, retry.refreshes + 1, retry.result, retry.user)
    else
      Attempts([request], 0, Settle(x), user)
  }

  /** A second 401 in a row is not retried again: the call throws `HTTP 401` (or the server's detail). */
  lemma SecondUnauthorizedIsFinal<T>(endpoint: string, options: RequestOptions, id: Identity,
                                     first: Body<T>, second: Body<T>)
    ensures var a := Execute(endpoint, options, Some(id), false, [Reply(401, first), Reply(401, second)]);
      && |a.sent| == 2 && a.refreshes == 1
      && a.result == Err(HttpFailure(FailureMessage(401, second)))
  {
    var a := Execute(endpoint, options, Some(id), false, [Reply(401, first), Reply(401, second)]);
    assert |a.sent| == 2;
  }

  /** Without a user a 401 is never retried, whatever `requireAuth` says. */
  lemma NoUserNoRetry<T>(endpoint: string, options: RequestOptions, isRetry: bool, transport: seq<Exchange<T>>)
    requires |transport| >= if isRetry then 1 else 2
    ensures var a := Execute(endpoint, options, None, isRetry, transport);
      && a.refreshes == 0 && |a.sent| == 1
      && Authorization !in a.sent[0].headers
      && a.result == Settle(transport[0])
  {
  }

  /** Each call forces at most one refresh and sends at most two requests, so it never loops. */
  lemma AtMostOneRetry<T>(endpoint: string, options: RequestOptions, user: Option<Identity>, isRetry: bool,
                          transport: seq<Exchange<T>>)
    requires |transport| >= if isRetry then 1 else 2
    ensures var a := Execute(endpoint, options, user, isRetry, transport);
      && a.refreshes <= 1 && |a.sent| <= 2
      && (isRetry ==> a.refreshes == 0)
  {
  }

  /** A refresh forced by one call outlives it: the user's next authenticated call sends the refreshed token. */
  lemma RefreshOutlivesTheCall<T, U>(id: Identity, endpoint: string, options: RequestOptions, first: seq<Exchange<T>>,
                                     nextEndpoint: string, nextOptions: RequestOptions, next: seq<Exchange<U>>)
    requires |first| >= 2 && first[0].Reply? && first[0].status == 401
    requires |next| >= 2 && nextOptions.requireAuth
    ensures var a := Execute(endpoint, options, Some(id), false, first);
      var b := Execute(nextEndpoint, nextOptions, a.user, false, next);
      && a.user == Some(Refreshed(id))
      && Authorization in b.sent[0].headers
      && b.sent[0].headers[Authorization] == "Bearer " + id.refreshedToken
  {
  }

  // ---------------------------------------------------------------------------
  // the calls the hooks use

  const AnalyzePath := "/api/v1/analyze"

  /** The body of an analysis request from the browser whose user agent is `userAgent`. */
  function AnalysisRequest(imageBase64: string, userComment: Option<string>, userAgent: string): (r: AnalyzeRequest)
    ensures r.imageBase64 == imageBase64 && r.userComment == userComment
    ensures r.platform == Some(Utils.DetectPlatform(userAgent))
  {
    AnalyzeRequest(imageBase64, userComment, Some(Utils.DetectPlatform(userAgent)))
  }

  /** `analyzeImage(imageBase64, userComment)`: an authenticated POST of the analysis request. */
  function AnalyzeImage(imageBase64: string, userComment: Option<string>, userAgent: string,
                        user: Option<Identity>, transport: seq<Exchange<AnalyzeResponse>>): (a: Attempts<AnalyzeResponse>)
    requires |transport| >= 2
    ensures |a.sent| >= 1 && a.sent[0].url == AnalyzePath && a.sent[0].verb == "POST"
    ensures a.sent[0].body == Some(AnalysisRequest(imageBase64, userComment, userAgent))
    ensures Authorization in a.sent[0].headers <==> user.Some?
  {
    Execute(AnalyzePath, RequestOptions("POST", Some(AnalysisRequest(imageBase64, userComment, userAgent)), true),
            user, false, transport)
  }

  const HistoryPath := "/api/v1/appraisals"

  /** The history query for one page. */
  function HistoryEndpoint(limit: nat, offset: nat): (e: string)
    ensures StartsWith(e, HistoryPath + "?limit=")
  {
    HistoryPath + "?limit=" + IntToDecimal(limit) + "&offset=" + IntToDecimal(offset)
  }

  /** Different offsets give different history queries. */
  lemma {:induction false} HistoryEndpointDeterminesOffset(limit: nat, offset1: nat, offset2: nat)
    requires HistoryEndpoint(limit, offset1) == HistoryEndpoint(limit, offset2)
    ensures offset1 == offset2
  {
    var prefix := HistoryPath + "?limit=" + IntToDecimal(limit) + "&offset=";
    assert HistoryEndpoint(limit, offset1) == prefix + NatToDecimal(offset1);
    assert HistoryEndpoint(limit, offset2) == prefix + NatToDecimal(offset2);
    assert NatToDecimal(offset1) == HistoryEndpoint(limit, offset1)[|prefix|..];
    assert NatToDecimal(offset2) == HistoryEndpoint(limit, offset2)[|prefix|..];
    DecimalRoundTrip(offset1);
    DecimalRoundTrip(offset2);
  }

  /** `getAppraisalHistory(limit, offset)`: an authenticated GET of one page. */
  function GetAppraisalHistory(limit: nat, offset: nat, user: Option<Identity>,
                               transport: seq<Exchange<seq<AppraisalHistoryItem>>>): (a: Attempts<seq<AppraisalHistoryItem>>)
    requires |transport| >= 2
    ensures |a.sent| >= 1 && a.sent[0].url == HistoryEndpoint(limit, offset) && a.sent[0].verb == "GET"
    ensures a.sent[0].body == None
    ensures Authorization in a.sent[0].headers <==> user.Some?
  {
    Execute(HistoryEndpoint(limit, offset), DefaultOptions, user, false, transport)
  }

  /** `getAppraisal(id)`: an authenticated GET of one history item (the server may answer `null`). */
  function GetAppraisal(id: string, user: Option<Identity>,
                        transport: seq<Exchange<Option<AppraisalHistoryItem>>>): (a: Attempts<Option<AppraisalHistoryItem>>)
    requires |transport| >= 2
    ensures |a.sent| >= 1 && a.sent[0].url == HistoryPath + "/" + id && a.sent[0].verb == "GET"
    ensures Authorization in a.sent[0].headers <==> user.Some?
  {
    Execute(HistoryPath + "/" + id, DefaultOptions, user, false, transport)
  }

  /** `getUserProfile()`: an authenticated GET of the caller's profile. */
  function GetUserProfile(user: Option<Identity>, transport: seq<Exchange<UserProfile>>): (a: Attempts<UserProfile>)
    requires |transport| >= 2
    ensures |a.sent| >= 1 && a.sent[0].url == "/api/v1/users/me" && a.sent[0].verb == "GET"
    ensures Authorization in a.sent[0].headers <==> user.Some?
  {
    Execute("/api/v1/users/me", DefaultOptions, user, false, transport)
  }
}
