/**
 * The outcome of one `fetch` call, taken as an input of the model: either
 * the server answered (status, status text, body) or the call threw
 * (a network failure, an abort by the request timeout, ...).
 */
module Http {
  import opened Wrappers
  import opened Text
  import opened Json

  /** A thrown JavaScript error: its `name` and its `message`. */
  datatype JsError = JsError(name: string, message: string)

  /** A response body: parsed JSON, or text that `response.json()` rejects with a SyntaxError. */
  datatype Body = Parsed(json: Json) | NotJson(parseError: string)

  datatype Response = Response(status: nat, statusText: string, body: Body)

  datatype Outcome = Answered(response: Response) | Threw(error: JsError)

  /** `response.ok` */
  predicate IsOk(r: Response) {
    200 <= r.status <= 299
  }

  /** `new Error(message)` */
  function Error(message: string): JsError {
    JsError("Error", message)
  }

  /** The error `response.json()` throws on a body that is not JSON. */
  function ParseError(b: Body): JsError
    requires b.NotJson?
  {
    JsError("SyntaxError", b.parseError)
  }

  /** `await response.json().catch(() => ({}))` on a failed response. */
  function ErrorData(r: Response): Json {
    match r.body
    case Parsed(j) => j
    case NotJson(_) => JObject(map[])
  }

  /**
   * The message of the error thrown for a failed response:
   * `errorData.error || errorData.details || `HTTP ${status}: ${statusText}``.
   * It is never empty.
   */
  function NotOkMessage(r: Response): (m: string)
    ensures m != ""
    ensures TruthyString(ErrorData(r), "error").Some? ==> m == TruthyString(ErrorData(r), "error").value
    ensures TruthyString(ErrorData(r), "error").None? && TruthyString(ErrorData(r), "details").Some? ==>
      m == TruthyString(ErrorData(r), "details").value
    ensures TruthyString(ErrorData(r), "error").None? && TruthyString(ErrorData(r), "details").None? ==>
      m == "HTTP " + NatToString(r.status) + ": " + r.statusText
  {
    var data := ErrorData(r);
    match TruthyString(data, "error")
    case Some(e) => e
    case None =>
      match TruthyString(data, "details")
      case Some(d) => d
      case None => "HTTP " + NatToString(r.status) + ": " + r.statusText
  }

  /** `error.name === "AbortError" || error.name === "TimeoutError"` */
  predicate IsTimeout(e: JsError) {
    e.name == "AbortError" || e.name == "TimeoutError"
  }

  /** `error.message?.includes("Failed to fetch")`: the browser could not reach the server. */
  predicate IsNetworkFailure(e: JsError) {
    Contains(e.message, "Failed to fetch")
  }

  /** `error.message || fallback` */
  function MessageOr(e: JsError, fallback: string): string {
    if e.message != "" then e.message else fallback
  }

  /**
   * What a command whose response body is not read (stop, delete) ends
   * with: None on an ok response, else the error its handler catches.
   */
  function CommandError(o: Outcome): (r: Option<JsError>)
    ensures r.None? <==> o.Answered? && IsOk(o.response)
    ensures o.Threw? ==> r == Some(o.error)
    ensures o.Answered? && !IsOk(o.response) ==> r == Some(Error(NotOkMessage(o.response)))
  {
    match o
    case Threw(e) => Some(e)
    case Answered(resp) => if IsOk(resp) then None else Some(Error(NotOkMessage(resp)))
  }
}
