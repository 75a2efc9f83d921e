/** The HTTP client of `src/services/api.ts`: the records the server returns,
    the errors a call rejects with, the token slot of local storage and the two
    interceptors every request and every error go through. A call to the server
    is a `CallOutcome` supplied by the caller. */
module Api {
  import opened Js

  /** `error.response`: the HTTP status and the `message` field of the JSON body. */
  datatype Response = Response(status: int, message: Option<string>)

  /** What a failed call rejects with, or an `Error` a context throws: its
      `message` and, for an HTTP error, its `response`. */
  datatype ApiError = ApiError(message: string, response: Option<Response>)

  /** The settled promise of one server call. */
  datatype CallOutcome<+T> = Ok(value: T) | Err(error: ApiError)

  datatype Transaction = Transaction(id: string, name: string, amount: real, date: string, category: string)

  datatype User = User(id: string, name: string, email: string)

  /** `err.response?.data?.message` is present and truthy. */
  predicate HasServerMessage(e: ApiError) {
    e.response.Some? && Truthy(e.response.value.message)
  }

  /** `err.response?.data?.message || fallback`. */
  function MessageOr(e: ApiError, fallback: string): (m: string)
    ensures HasServerMessage(e) ==> m == e.response.value.message.value
    ensures !HasServerMessage(e) ==> m == fallback
    ensures fallback != "" ==> m != ""
  {
    if HasServerMessage(e) then e.response.value.message.value else fallback
  }

  /** `throw new Error(message)`: an error that carries a message and no response. */
  function Rethrown(e: ApiError, fallback: string): (t: ApiError)
    ensures t.response.None? && !HasServerMessage(t)
    ensures t.message == MessageOr(e, fallback)
  {
    ApiError(MessageOr(e, fallback), None)
  }

  /** The browser state the client shares between its parts: the "token" entry
      of local storage and `window.location.href`. */
  class Browser {
    var token: Option<string>
    var location: string

    constructor (token: Option<string>, location: string)
      ensures this.token == token && this.location == location
    {
      this.token := token;
      this.location := location;
    }
  }

  /** The `Authorization` header the request interceptor sets, if any. */
  function AuthorizationHeader(token: Option<string>): (h: Option<string>)
    ensures h.Some? <==> Truthy(token)
    ensures h.Some? ==> h.value == "Bearer " + token.value
  {
    if Truthy(token) then Some("Bearer " + token.value) else None
  }

  /** The headers of an outgoing request, which the request interceptor edits in place. */
  class RequestConfig {
    var headers: map<string, string>

    constructor (headers: map<string, string>)
      ensures this.headers == headers
    {
      this.headers := headers;
    }
  }

  /** The request interceptor: adds `Authorization: Bearer <token>` when a token
      is stored and returns the same config. */
  method AttachAuthorization(config: RequestConfig, browser: Browser) returns (r: RequestConfig)
    modifies config
    ensures r == config
    ensures Truthy(browser.token) ==> config.headers == old(config.headers)["Authorization" := "Bearer " + browser.token.value]
    ensures !Truthy(browser.token) ==> config.headers == old(config.headers)
  {
    var token := browser.token;
    if Truthy(token) {
      config.headers := config.headers["Authorization" := "Bearer " + token.value];
    }
    r := config;
  }

  /** The response is an HTTP 401. An error without a response, such as a
      network failure, never is. */
  function IsUnauthorized(e: ApiError): (b: bool)
    ensures e.response.None? ==> !b
    ensures b ==> e.response.value.status == 401
  {
    e.response.Some? && e.response.value.status == 401
  }

  /** The stored token once the response interceptor has seen `e`. */
  function TokenAfter(token: Option<string>, e: ApiError): (t: Option<string>)
    ensures IsUnauthorized(e) ==> t.None?
    ensures !IsUnauthorized(e) ==> t == token
  {
    if IsUnauthorized(e) then None else token
  }

  /** The location once the response interceptor has seen `e`. */
  function LocationAfter(location: string, e: ApiError): (l: string)
    ensures IsUnauthorized(e) ==> l == "/login"
    ensures !IsUnauthorized(e) ==> l == location
  {
    if IsUnauthorized(e) then "/login" else location
  }

  /** The error branch of the response interceptor: a 401 drops the token and
      sends the browser to /login; every error is passed on as the rejection. */
  method RejectResponseError(browser: Browser, e: ApiError) returns (rejected: ApiError)
    modifies browser
    ensures rejected == e
    ensures browser.token == TokenAfter(old(browser.token), e)
    ensures browser.location == LocationAfter(old(browser.location), e)
  {
    if e.response.Some? && e.response.value.status == 401 {
      browser.token := None;
      browser.location := "/login";
    }
    rejected := e;
  }

  /** The stored token once the call that ended in `o` has settled. */
  function TokenAfterCall<T>(token: Option<string>, o: CallOutcome<T>): (t: Option<string>)
    ensures o.Ok? ==> t == token
    ensures o.Err? ==> t == TokenAfter(token, o.error)
  {
    if o.Err? then TokenAfter(token, o.error) else token
  }

  /** The location once the call that ended in `o` has settled. */
  function LocationAfterCall<T>(location: string, o: CallOutcome<T>): (l: string)
    ensures o.Ok? ==> l == location
    ensures o.Err? ==> l == LocationAfter(location, o.error)
  {
    if o.Err? then LocationAfter(location, o.error) else location
  }

  /** Settles a call: its error, if any, passes through the response interceptor. */
  method Settle<T>(browser: Browser, o: CallOutcome<T>)
    modifies browser
    ensures browser.token == TokenAfterCall(old(browser.token), o)
    ensures browser.location == LocationAfterCall(old(browser.location), o)
  {
    if o.Err? {
      var _ := RejectResponseError(browser, o.error);
    }
  }
}
