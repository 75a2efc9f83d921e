/** The session of `src/context/AuthContext.tsx`: the signed-in user, the
    `loading` and `error` fields and the stored token, kept by the initial
    effect, `fetchUser`, `login`, `register`, `forgotPassword`,
    `resetPassword`, `logout`, `updateUser` and `clearError`; and the guard
    of `src/App.tsx` that protects the signed-in routes. Each server call is a
    `CallOutcome` parameter; a failure passes through the response
    interceptor of `Api`. */
module AuthContext {
  import opened Js
  import opened Api

  const SessionExpired := "Session expired. Please login again."
  const LoginFailed := "Failed to login"
  const RegisterFailed := "Failed to register"
  const ForgotFailed := "Failed to process request"
  const ResetFailed := "Failed to reset password"

  /** The stored token after `fetchUser` settles: a failure removes it. */
  function TokenAfterFetch(token: Option<string>, me: CallOutcome<User>): (t: Option<string>)
    ensures me.Ok? ==> t == token
    ensures me.Err? ==> t == None
  {
    if me.Ok? then token else None
  }

  /** The user after `fetchUser` settles: the profile on success, unchanged on failure. */
  function UserAfterFetch(user: Option<User>, me: CallOutcome<User>): (u: Option<User>)
    ensures me.Ok? ==> u == Some(me.value)
    ensures me.Err? ==> u == user
  {
    if me.Ok? then Some(me.value) else user
  }

  /** The error after `fetchUser` settles: cleared on success, the fixed
      session message on failure. */
  function ErrorAfterFetch(me: CallOutcome<User>): (e: Option<string>)
    ensures me.Ok? <==> e.None?
    ensures me.Err? ==> e == Some(SessionExpired)
  {
    if me.Ok? then None else Some(SessionExpired)
  }

  /** What `register` rethrows, as written: `new Error(message)`, which drops
      the response and keeps only the message. */
  function RegisterRethrowAsWritten(e: ApiError): (t: ApiError)
    ensures t == Rethrown(e, RegisterFailed)
    ensures t.response.None?
  {
    Rethrown(e, RegisterFailed)
  }

  /** What a corrected `register` rethrows: the call's own error, so that the
      registration page can still read the response and the message. */
  function RegisterRethrow(e: ApiError): (t: ApiError)
    ensures t.response == e.response && t.message == e.message
  {
    e
  }

  /** The provider's state. */
  class AuthProvider {
    var user: Option<User>
    var loading: bool
    var error: Option<string>
    const browser: Browser

    constructor (browser: Browser)
      ensures user.None? && loading && error.None? && this.browser == browser
    {
      user := None;
      loading := true;
      error := None;
      this.browser := browser;
    }

    /** `fetchUser`: GET /auth/me with the header the request interceptor
        builds from the stored token, returned as `header`. A failure removes
        the token, sets the session message and does not throw. */
    method FetchUser(me: CallOutcome<User>) returns (header: Option<string>)
      modifies this, browser
      ensures header == AuthorizationHeader(old(browser.token))
      ensures !loading
      ensures user == UserAfterFetch(old(user), me) && error == ErrorAfterFetch(me)
      ensures browser.token == TokenAfterFetch(old(browser.token), me)
      ensures browser.location == LocationAfterCall(old(browser.location), me)
    {
      loading := true;
      header := AuthorizationHeader(browser.token);
      Settle(browser, me);
      match me {
      case Ok(data) =>
        user := Some(data);
        error := None;
      case Err(_) =>
        browser.token := None;
        error := Some(SessionExpired);
      }
      loading := false;
    }

    /** The initial effect: fetch the profile when a token is stored,
        otherwise only lower `loading`. `fetched` tells whether it fetched. */
    method Start(me: CallOutcome<User>) returns (fetched: bool)
      modifies this, browser
      ensures fetched <==> Truthy(old(browser.token))
      ensures !loading
      ensures !fetched ==>
        && user == old(user) && error == old(error)
        && browser.token == old(browser.token) && browser.location == old(browser.location)
      ensures fetched ==>
        && user == UserAfterFetch(old(user), me) && error == ErrorAfterFetch(me)
        && browser.token == TokenAfterFetch(old(browser.token), me)
        && browser.location == LocationAfterCall(old(browser.location), me)
    {
      fetched := Truthy(browser.token);
      if fetched {
        var _ := FetchUser(me);
      } else {
        loading := false;
      }
    }

    /** The shared shape of `login` and `register`: post the credentials,
        store the returned token, then fetch the profile with it. Only a
        failure of the post sets the error and throws; a failed profile fetch
        is swallowed by `fetchUser`. `header` is the header the profile fetch
        carried. */
    method SignIn(response: CallOutcome<string>, me: CallOutcome<User>, fallback: string)
      returns (failed: Option<ApiError>, header: Option<string>)
      modifies this, browser
      ensures !loading
      ensures response.Ok? ==>
        && failed.None?
        && header == AuthorizationHeader(Some(response.value))
        && user == UserAfterFetch(old(user), me) && error == ErrorAfterFetch(me)
        && browser.token == TokenAfterFetch(Some(response.value), me)
        && browser.location == LocationAfterCall(old(browser.location), me)
      ensures response.Err? ==>
        && failed == Some(response.error) && header.None?
        && user == old(user) && error == Some(MessageOr(response.error, fallback))
        && browser.token == TokenAfter(old(browser.token), response.error)
        && browser.location == LocationAfter(old(browser.location), response.error)
    {
      loading := true;
      Settle(browser, response);
      match response {
      case Ok(token) =>
        browser.token := Some(token);
        header := FetchUser(me);
        failed := None;
      case Err(e) =>
        error := Some(MessageOr(e, fallback));
        failed := Some(e);
        header := None;
      }
      loading := false;
    }

    /** `login`: on failure the error becomes the server message or
        "Failed to login" and `new Error(message)` is thrown. */
    method Login(response: CallOutcome<string>, me: CallOutcome<User>) returns (thrown: Option<ApiError>, header: Option<string>)
      modifies this, browser
      ensures !loading
      ensures response.Ok? ==>
        && thrown.None?
        && header == AuthorizationHeader(Some(response.value))
        && user == UserAfterFetch(old(user), me) && error == ErrorAfterFetch(me)
        && browser.token == TokenAfterFetch(Some(response.value), me)
        && browser.location == LocationAfterCall(old(browser.location), me)
      ensures response.Err? ==>
        && thrown == Some(Rethrown(response.error, LoginFailed)) && header.None?
        && user == old(user) && error == Some(MessageOr(response.error, LoginFailed))
        && browser.token == TokenAfter(old(browser.token), response.error)
        && browser.location == LocationAfter(old(browser.location), response.error)
    {
      var failed;
      failed, header := SignIn(response, me, LoginFailed);
      thrown := if failed.Some? then Some(Rethrown(failed.value, LoginFailed)) else None;
    }

    /** `register` as written: like `login` with "Failed to register"; the
        error thrown is `new Error(message)` (`RegisterRethrowAsWritten`),
        which carries no response. */
    method Register(response: CallOutcome<string>, me: CallOutcome<User>) returns (thrown: Option<ApiError>, header: Option<string>)
      modifies this, browser
      ensures !loading
      ensures response.Ok? ==>
        && thrown.None?
        && header == AuthorizationHeader(Some(response.value))
        && user == UserAfterFetch(old(user), me) && error == ErrorAfterFetch(me)
        && browser.token == TokenAfterFetch(Some(response.value), me)
        && browser.location == LocationAfterCall(old(browser.location), me)
      ensures response.Err? ==>
        && thrown == Some(RegisterRethrowAsWritten(response.error)) && header.None?
        && thrown.value.response.None?
        && user == old(user) && error == Some(MessageOr(response.error, RegisterFailed))
        && browser.token == TokenAfter(old(browser.token), response.error)
        && browser.location == LocationAfter(old(browser.location), response.error)
    {
      var failed;
      failed, header := SignIn(response, me, RegisterFailed);
      thrown := if failed.Some? then Some(RegisterRethrowAsWritten(failed.value)) else None;
    }

    /** The corrected `register`: the same, except that the call's own error
        is rethrown (`RegisterRethrow`), response and message included. */
    method RegisterCorrected(response: CallOutcome<string>, me: CallOutcome<User>) returns (thrown: Option<ApiError>, header: Option<string>)
      modifies this, browser
      ensures !loading
      ensures response.Ok? ==>
        && thrown.None?
        && header == AuthorizationHeader(Some(response.value))
        && user == UserAfterFetch(old(user), me) && error == ErrorAfterFetch(me)
        && browser.token == TokenAfterFetch(Some(response.value), me)
        && browser.location == LocationAfterCall(old(browser.location), me)
      ensures response.Err? ==>
        && thrown == Some(RegisterRethrow(response.error)) && header.None?
        && thrown.value.response == response.error.response
        && user == old(user) && error == Some(MessageOr(response.error, RegisterFailed))
        && browser.token == TokenAfter(old(browser.token), response.error)
        && browser.location == LocationAfter(old(browser.location), response.error)
    {
      var failed;
      failed, header := SignIn(response, me, RegisterFailed);
      thrown := if failed.Some? then Some(RegisterRethrow(failed.value)) else None;
    }

    /** The shared shape of `forgotPassword` and `resetPassword`: one call;
        a failure sets the server message or the fallback and throws
        `new Error(message)`. */
    method Request(response: CallOutcome<()>, fallback: string) returns (thrown: Option<ApiError>)
      modifies this, browser
      ensures !loading && user == old(user)
      ensures browser.token == TokenAfterCall(old(browser.token), response)
      ensures browser.location == LocationAfterCall(old(browser.location), response)
      ensures response.Ok? ==> thrown.None? && error == old(error)
      ensures response.Err? ==>
        && thrown == Some(Rethrown(response.error, fallback))
        && error == Some(MessageOr(response.error, fallback))
    {
      loading := true;
      Settle(browser, response);
      match response {
      case Ok(_) =>
        thrown := None;
      case Err(e) =>
        error := Some(MessageOr(e, fallback));
        thrown := Some(Rethrown(e, fallback));
      }
      loading := false;
    }

    /** `forgotPassword`. */
    method ForgotPassword(response: CallOutcome<()>) returns (thrown: Option<ApiError>)
      modifies this, browser
      ensures !loading && user == old(user)
      ensures browser.token == TokenAfterCall(old(browser.token), response)
      ensures browser.location == LocationAfterCall(old(browser.location), response)
      ensures response.Ok? ==> thrown.None? && error == old(error)
      ensures response.Err? ==>
        && thrown == Some(Rethrown(response.error, ForgotFailed))
        && error == Some(MessageOr(response.error, ForgotFailed))
    {
      thrown := Request(response, ForgotFailed);
    }

    /** `resetPassword`. */
    method ResetPassword(response: CallOutcome<()>) returns (thrown: Option<ApiError>)
      modifies this, browser
      ensures !loading && user == old(user)
      ensures browser.token == TokenAfterCall(old(browser.token), response)
      ensures browser.location == LocationAfterCall(old(browser.location), response)
      ensures response.Ok? ==> thrown.None? && error == old(error)
      ensures response.Err? ==>
        && thrown == Some(Rethrown(response.error, ResetFailed))
        && error == Some(MessageOr(response.error, ResetFailed))
    {
      thrown := Request(response, ResetFailed);
    }

    /** `logout`: remove the token and the user; nothing else changes. */
    method Logout()
      modifies this`user, browser`token
      ensures user.None? && browser.token.None?
    {
      browser.token := None;
      user := None;
    }

    /** `updateUser`: only the user changes. */
    method UpdateUser(updated: User)
      modifies this`user
      ensures user == Some(updated)
    {
      user := Some(updated);
    }

    /** `clearError`: only the error changes. */
    method ClearError()
      modifies this`error
      ensures error.None?
    {
      error := None;
    }
  }

  /** What a guarded route renders. */
  datatype GuardView = Spinner | RedirectToLogin | Children

  /** `ProtectedRoute`: a spinner while loading, whoever the user; otherwise
      the page for a signed-in user and a redirect to /login for nobody. */
  function RouteGuard(loading: bool, user: Option<User>): (v: GuardView)
    ensures v == Spinner <==> loading
    ensures v == RedirectToLogin <==> !loading && user.None?
    ensures v == Children <==> !loading && user.Some?
  {
    if loading then Spinner else if user.None? then RedirectToLogin else Children
  }
}
