/**
 * Value types shared by every view of the console: JavaScript's absent
 * values, the result of `Number(...)`, and the error value the views keep
 * after a failed request.
 */
module Common {

  /** A value that may be absent; JavaScript's `null` and `undefined` both become None. */
  datatype Option<+T> = None | Some(value: T) {
    /** `x ?? default` */
    function GetOr(default: T): T {
      match this
      case Some(v) => v
      case None => default
    }
  }

  /** What `Number(x)` produces: a number, or NaN (which compares false with everything). */
  datatype JsNumber = Num(val: real) | NaN

  /** The structured body `{ message, details? }` the vault returns with a failing status. */
  datatype ApiError = ApiError(message: string, details: seq<string>)

  /** A failing response's body: the vault's JSON error object, or plain text (an HTML or text error page). */
  datatype Body = JsonBody(error: ApiError) | TextBody(text: string)

  /** What a `catch (err)` clause sees. */
  datatype Thrown =
    | HttpFailure(responseData: Option<Body>, message: string)  // an Error object, maybe with a response body
    | ThrownText(text: string)                                  // a bare string was thrown

  /** `if (err?.response?.data)`: a body is there and truthy, so an empty text body does not count. */
  predicate HasBody(err: Thrown) {
    err.HttpFailure? && err.responseData.Some? && (err.responseData.value.JsonBody? || err.responseData.value.text != "")
  }

  /** How an awaited request ended: with its response, or with what the catch clause sees. */
  datatype Outcome<+T> = Ok(value: T) | Failed(err: Thrown)

  /** The error state a view stores: the structured body, or a displayable string. */
  datatype ViewError = Structured(body: ApiError) | Text(text: string)

  /**
   * The normalisation every list view applies in its catch clause: the response
   * body first, then a non-empty `message`, then a thrown string, else the
   * view's fixed fallback text.
   */
  function NormalizeError(err: Thrown, fallback: string): (e: ViewError)
    ensures HasBody(err) && err.responseData.value.JsonBody? ==> e == Structured(err.responseData.value.error)
    ensures HasBody(err) && err.responseData.value.TextBody? ==> e == Text(err.responseData.value.text)
    ensures err.HttpFailure? && !HasBody(err) && err.message != "" ==> e == Text(err.message)
    ensures err.HttpFailure? && !HasBody(err) && err.message == "" ==> e == Text(fallback)
    ensures err.ThrownText? ==> e == Text(err.text)
  {
    match err
    case HttpFailure(data, msg) =>
      if HasBody(err) then
        match data.value
        case JsonBody(body) => Structured(body)
        case TextBody(t) => Text(t)
      else if msg != "" then Text(msg)
      else Text(fallback)
    case ThrownText(t) => Text(t)
  }

  /** A toast is raised only when the stored error is a string (`typeof msg === "string"`). */
  predicate ShowsToast(e: ViewError) {
    e.Text?
  }

  /** The error message raised as a toast, if the stored error is a string. */
  function Toast(e: ViewError): (r: Option<string>)
    ensures r.Some? <==> ShowsToast(e)
    ensures e.Text? ==> r == Some(e.text)
  {
    if e.Text? then Some(e.text) else None
  }

  /** A failing response whose body is non-empty text (say a plain-text 500 page) is stored as that text and toasted. */
  lemma TextBodyToasted(t: string, msg: string, fallback: string)
    requires t != ""
    ensures NormalizeError(HttpFailure(Some(TextBody(t)), msg), fallback) == Text(t)
    ensures Toast(NormalizeError(HttpFailure(Some(TextBody(t)), msg), fallback)) == Some(t)
  {
  }

  /** `response || []`: an absent list response counts as an empty list. */
  function ResponseList<T>(response: Option<seq<T>>): (r: seq<T>)
    ensures response.Some? ==> r == response.value
    ensures response.None? ==> r == []
  {
    response.GetOr([])
  }

  /** The key under which a table row's in-flight operations are tracked: `${token_address}-${chain}`. */
  function RowKey(tokenAddress: string, chain: string): string {
    tokenAddress + "-" + chain
  }
}
