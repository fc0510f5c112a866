/** Value shapes of the JavaScript runtime that the client code relies on:
    optional values (`undefined`/`null`), thrown errors, and the truthiness
    and `||` defaulting rules applied to strings. */
module JsRuntime {

  /** `None` stands for `undefined` or `null`. */
  datatype Option<+T> = None | Some(value: T) {
    function GetOr(default: T): T {
      match this
      case Some(v) => v
      case None => default
    }
  }

  /** A completed operation (`Ok`) or one that threw (`Err`). */
  datatype Result<+T, +E> = Ok(value: T) | Err(error: E)

  /** The HTTP response an axios-style error carries: its status and `data.message`. */
  datatype HttpResponse = HttpResponse(status: int, dataMessage: Option<string>)

  /** A thrown error as the handlers inspect it: `error.message`,
      `error.response` (present when the server answered) and whether
      `error.request` is set (the request went out but nothing came back). */
  datatype JsError = JsError(message: string, response: Option<HttpResponse>, requestSent: bool)

  /** `new Error(message)`: no response, no request. */
  function ThrownError(message: string): (e: JsError)
    ensures e.message == message && e.response.None? && !e.requestSent
  {
    JsError(message, None, false)
  }

  /** A string value is truthy when it is present and not empty. */
  predicate Truthy(v: Option<string>) {
    v.Some? && v.value != ""
  }

  /** `v || fallback` on a possibly missing string. */
  function OrElse(v: Option<string>, fallback: string): (r: string)
    ensures Truthy(v) ==> r == v.value
    ensures !Truthy(v) ==> r == fallback
    ensures fallback != "" ==> r != ""
  {
    if Truthy(v) then v.value else fallback
  }

  /** The text `Storage.setItem` stores for a string that may be `undefined`
      (the value is converted with `String(...)`). */
  function StorageText(v: Option<string>): string {
    match v
    case Some(s) => s
    case None => "undefined"
  }

  /** `Storage.getItem`: `null` for a missing key. */
  function GetItem(store: map<string, string>, key: string): (r: Option<string>)
    ensures r.Some? <==> key in store
    ensures r.Some? ==> r.value == store[key]
  {
    if key in store then Some(store[key]) else None
  }
}
