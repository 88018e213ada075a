/**
 * The analysis state machine of the single-request path: `analyze` and `reset`
 * over `state`, `result` and `error`. The hook's user is held as an explicit
 * identity; anonymous sign-in is an input that either yields one or throws.
 */
module AnalyzeHook {
  import opened Wrappers
  import opened Browser
  import AppraisalTypes
  import ApiClient

  datatype AnalyzeState = Idle | Loading | Success | Error

  /** The outcome of `signIn()`: a fresh anonymous identity, or the value it threw. */
  datatype SignInOutcome = SignedIn(identity: Identity) | SignInFailed(thrown: Thrown)

  const AnalyzeFallback := "査定に失敗しました"

  /** The text stored in `error` for a caught value: an `Error`'s message, else the fallback. */
  function ErrorText(t: Thrown): (m: string)
    ensures t.ErrorObject? ==> m == t.message
    ensures t.NonError? ==> m == AnalyzeFallback
  {
    match t
    case ErrorObject(message) => message
    case NonError => AnalyzeFallback
  }

  /** What the executor throws, as the hook catches it: always an `Error` carrying the message. */
  function Caught<T>(r: Result<T, ApiClient.ApiError>): (c: Result<T, Thrown>)
    ensures c.Ok? <==> r.Ok?
    ensures c.Ok? ==> c.value == r.value
    ensures c.Err? ==> c.error == ErrorObject(r.error.message)
  {
    match r
    case Ok(v) => Ok(v)
    case Err(e) => Err(ErrorObject(e.message))
  }

  class AnalyzeController {
    var user: Option<Identity>
    var state: AnalyzeState
    var result: Option<AppraisalTypes.AnalyzeResponse>
    var error: Option<string>

    constructor(user: Option<Identity>)
      ensures this.user == user && state == Idle && result == None && error == None
    {
      this.user := user;
      state := Idle;
      result := None;
      error := None;
    }

    function IsLoading(): bool reads this { state == Loading }
    function IsSuccess(): bool reads this { state == Success }
    function IsError(): bool reads this { state == Error }

    /** The three derived flags each test one state, so no two hold at once. */
    lemma AtMostOneFlag()
      ensures !(IsLoading() && IsSuccess()) && !(IsLoading() && IsError()) && !(IsSuccess() && IsError())
    {
    }

    /** The first, synchronous part of `analyze`: enter `loading` with no result and no error. */
    method Begin()
      modifies this
      ensures state == Loading && result == None && error == None
      ensures user == old(user)
    {
      state := Loading;
      result := None;
      error := None;
    }

    /**
     * `analyze(imageBase64, userComment)` run to its end. It is not refused
     * while a previous call is loading. Without a user it signs in first; if
     * that throws, no request is sent. Every call ends in `success` with the
     * response stored, or in `error` with the caught message, and the caught
     * value is rethrown.
     */
    method Analyze(imageBase64: string, userComment: Option<string>, userAgent: string,
                   signIn: SignInOutcome, transport: seq<Exchange<AppraisalTypes.AnalyzeResponse>>)
      returns (outcome: Result<AppraisalTypes.AnalyzeResponse, Thrown>, sent: seq<Request>)
      requires |transport| >= 2
      modifies this
      ensures state == Success || state == Error
      ensures state == Success <==> outcome.Ok?
      ensures outcome.Ok? ==> result == Some(outcome.value) && error == None
      ensures outcome.Err? ==> result == None && error == Some(ErrorText(outcome.error))
      ensures old(user).None? && signIn.SignInFailed? ==>
        sent == [] && outcome == Err(signIn.thrown) && user == None
      ensures old(user).Some? ==>
        var a := ApiClient.AnalyzeImage(imageBase64, userComment, userAgent, old(user), transport);
        user == a.user && sent == a.sent && outcome == Caught(a.result)
      ensures old(user).None? && signIn.SignedIn? ==>
        var a := ApiClient.AnalyzeImage(imageBase64, userComment, userAgent, Some(signIn.identity), transport);
        user == a.user && sent == a.sent && outcome == Caught(a.result)
      ensures old(user).Some? && transport[0].Reply? && transport[0].status == 401 ==>
        user == Some(Refreshed(old(user).value))
      ensures old(user).Some? && !(transport[0].Reply? && transport[0].status == 401) ==> user == old(user)
    {
      Begin();
      if user.None? {
        match signIn
        case SignInFailed(thrown) =>
          outcome, sent := Err(thrown), [];
          error := Some(ErrorText(thrown));
          state := Error;
          return;
        case SignedIn(identity) =>
          user := Some(identity);
      }
      var a := ApiClient.AnalyzeImage(imageBase64, userComment, userAgent, user, transport);
      sent := a.sent;
      user := a.user;
      outcome := Caught(a.result);
      match outcome
      case Ok(response) =>
        result := Some(response);
        state := Success;
      case Err(thrown) =>
        error := Some(ErrorText(thrown));
        state := Error;
    }

    /** `reset()`: back to `idle` with no result and no error, from any state. */
    method Reset()
      modifies this
      ensures state == Idle && result == None && error == None
      ensures user == old(user)
    {
      state := Idle;
      result := None;
      error := None;
    }
  }

  /** A response with no field set, as an error body that carries only `detail` parses. */
  const EmptyResponse := AppraisalTypes.AnalyzeResponse(None, None, None, [], AppraisalTypes.UnknownItem, None, None, None, None, None, None)

  /** A call whose request fails with a server detail ends in `error` showing that detail. */
  lemma {:induction false} ServerDetailReachesTheHook(status: int, detail: string, id: Identity,
                                                      imageBase64: string, userAgent: string)
    requires !Browser.IsOk(status) && status != 401 && detail != ""
    ensures var transport: seq<Exchange<AppraisalTypes.AnalyzeResponse>> := [Reply(status, Json(EmptyResponse, Some(detail))), Unreachable("")];
      var a := ApiClient.AnalyzeImage(imageBase64, None, userAgent, Some(id), transport);
      ErrorText(Caught(a.result).error) == detail
  {
    var body: Body<AppraisalTypes.AnalyzeResponse> := Json(EmptyResponse, Some(detail));
    var transport := [Reply(status, body), Unreachable("")];
    var a := ApiClient.AnalyzeImage(imageBase64, None, userAgent, Some(id), transport);
    assert a.refreshes == 0;
    assert a.result == ApiClient.Settle(Reply(status, body));
  }
}
