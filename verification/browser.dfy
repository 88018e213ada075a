/**
 * Values supplied by the browser and by the identity provider: the signed-in
 * identity, an HTTP request as sent, the outcome of one `fetch`, a picked file
 * and the outcome of reading it. The client never computes these; the model
 * takes them as inputs.
 */
module Browser {
  import opened Wrappers
  import AppraisalTypes

  /**
   * The signed-in user as seen through `getIdToken`: `token` is what a plain
   * call returns, `refreshedToken` what a forced refresh returns.
   */
  datatype Identity = Identity(token: string, refreshedToken: string)

  /**
   * The identity after `getIdToken(true)`: later calls return the refreshed
   * token. The model holds no token newer than that, so a further forced
   * refresh hands out the same one.
   */
  function Refreshed(id: Identity): (r: Identity)
    ensures r.token == id.refreshedToken
    ensures r.refreshedToken == r.token
  {
    Identity(id.refreshedToken, id.refreshedToken)
  }

  /** One HTTP request as handed to `fetch` (`verb` is its method). Only analysis requests carry a body. */
  datatype Request = Request(
    url: string,
    verb: string,
    headers: map<string, string>,
    body: Option<AppraisalTypes.AnalyzeRequest>)

  /**
   * What `response.json()` yields: either a parse failure (with the message of
   * the `SyntaxError` it rejects with) or a JSON object, read as a `T`, whose
   * `detail` field may be present.
   */
  datatype Body<T> = Malformed(reason: string) | Json(value: T, detail: Option<string>)

  /** The outcome of one `fetch`: a network failure (a `TypeError`) or a response. */
  datatype Exchange<T> = Unreachable(reason: string) | Reply(status: int, body: Body<T>)

  /** `response.ok`. */
  predicate IsOk(status: int) {
    200 <= status <= 299
  }

  /** A JavaScript string value used as a condition: absent and empty are both false. */
  predicate Truthy(s: Option<string>) {
    s.Some? && s.value != ""
  }

  /** A value thrown by a callee: an `Error` with its message, or anything else. */
  datatype Thrown = ErrorObject(message: string) | NonError

  /** A `File` as the picker sees it. */
  datatype FileInfo = FileInfo(mimeType: string, size: nat)

  /** The outcome of `FileReader.readAsDataURL`. */
  datatype FileRead = Loaded(dataUrl: string) | ReadFailed
}
