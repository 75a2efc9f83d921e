/** The sign-up page of `src/pages/Register.tsx`: the server probe on mount,
    the ordered checks of `handleSubmit`, the classification of a failed
    registration and the submit button's disabled rule. */
module RegisterPage {
  import opened Js
  import opened Api
  import AuthContext

  datatype ServerStatus = Checking | Online | Offline

  /** The auth provider's state as the page sees it: user, `loading`, `error`,
      and the browser's token and location. */
  datatype AuthSnapshot = AuthSnapshot(user: Option<User>, loading: bool, error: Option<string>,
                                       token: Option<string>, location: string)

  const FillAllFields := "Please fill in all fields"
  const PasswordsDiffer := "Passwords do not match"
  const PasswordTooShort := "Password must be at least 6 characters"
  const ServerUnavailable := "Server is currently unavailable. Please try again later."
  const CannotConnect := "Unable to connect to the server. Please check your internet connection and try again."
  const RegistrationFailed := "Registration failed. Please try again later."

  /** The first failing check of lines 42-61, in that order, if any. The
      password's length is `password.length`, in UTF-16 code units. */
  function ValidationError(name: string, email: string, password: string, confirm: string, status: ServerStatus): (r: Option<string>)
    ensures (name == "" || email == "" || password == "" || confirm == "") ==> r == Some(FillAllFields)
    ensures name != "" && email != "" && password != "" && confirm != "" && password != confirm ==> r == Some(PasswordsDiffer)
    ensures (name != "" && email != "" && password != "" && password == confirm && Utf16Length(password) >= 6
      && status == Offline) ==> r == Some(ServerUnavailable)
    ensures r.None? <==>
      name != "" && email != "" && password != "" && confirm != ""
      && password == confirm && Utf16Length(password) >= 6 && status != Offline
  {
    if name == "" || email == "" || password == "" || confirm == "" then Some(FillAllFields)
    else if password != confirm then Some(PasswordsDiffer)
    else if Utf16Length(password) < 6 then Some(PasswordTooShort)
    else if status == Offline then Some(ServerUnavailable)
    else None
  }

  /** A short password is reported only once the fields are filled and the
      passwords agree, and then ahead of the server status. */
  lemma ShortPasswordPrecedence(name: string, email: string, password: string, confirm: string, status: ServerStatus)
    ensures ValidationError(name, email, password, confirm, status) == Some(PasswordTooShort) <==>
      name != "" && email != "" && password != "" && password == confirm && Utf16Length(password) < 6
  {
  }

  /** Three emoji make a password of length 6, which passes the length check,
      though it holds three characters. */
  lemma EmojiPasswordLength(name: string, email: string, password: string)
    requires name != "" && email != ""
    requires |password| == 3 && forall i :: 0 <= i < 3 ==> password[i] == '\U{1F600}'
    ensures Utf16Length(password) == 6
    ensures ValidationError(name, email, password, password, Online).None?
  {
    Utf16LengthOfAstral(password);
  }

  /** The message a failed registration shows: the server's message, else a
      connection message when the error's message mentions "Network", else a
      generic one. */
  function RegistrationErrorMessage(err: ApiError): (m: string)
    ensures HasServerMessage(err) ==> m == err.response.value.message.value
    ensures !HasServerMessage(err) && Includes(err.message, "Network") ==> m == CannotConnect
    ensures !HasServerMessage(err) && !Includes(err.message, "Network") ==> m == RegistrationFailed
  {
    if HasServerMessage(err) then err.response.value.message.value
    else if Includes(err.message, "Network") then CannotConnect
    else RegistrationFailed
  }

  /** With the error `register` throws as written, the page can only ever say
      one of its two fixed texts: the server's message is never shown. */
  lemma AsWrittenShowsOnlyFixedTexts(e: ApiError)
    ensures RegistrationErrorMessage(AuthContext.RegisterRethrowAsWritten(e)) in {CannotConnect, RegistrationFailed}
  {
  }

  /** A rejected sign-up (HTTP 400 with a message) shows the generic text as
      written, and the server's message with the original error rethrown. */
  lemma ServerMessageLostAsWritten()
    ensures
      var e := ApiError("Request failed with status code 400", Some(Response(400, Some("User already exists"))));
      && RegistrationErrorMessage(AuthContext.RegisterRethrowAsWritten(e)) == RegistrationFailed
      && RegistrationErrorMessage(AuthContext.RegisterRethrow(e)) == "User already exists"
  {
    var e := ApiError("Request failed with status code 400", Some(Response(400, Some("User already exists"))));
    var shown := "User already exists";
    assert HasServerMessage(e) && e.response.value.message.value == shown;
    NoNetworkIn(shown);
    var t := AuthContext.RegisterRethrowAsWritten(e);
    assert t == ApiError(shown, None);
  }

  /** Without a server message, the error `register` throws as written always
      shows the generic text, whatever the original error said. */
  lemma AsWrittenWithoutServerMessage(e: ApiError)
    requires !HasServerMessage(e)
    ensures RegistrationErrorMessage(AuthContext.RegisterRethrowAsWritten(e)) == RegistrationFailed
  {
    var t := AuthContext.RegisterRethrowAsWritten(e);
    assert t.message == AuthContext.RegisterFailed;
    NoNetworkIn(t.message);
  }

  /** An unreachable server (axios's "Network Error", no response) shows the
      generic text as written, and the connection text with the original error
      rethrown. */
  lemma NetworkErrorLostAsWritten(e: ApiError)
    requires e == ApiError("Network Error", None)
    ensures RegistrationErrorMessage(AuthContext.RegisterRethrowAsWritten(e)) == RegistrationFailed
    ensures RegistrationErrorMessage(AuthContext.RegisterRethrow(e)) == CannotConnect
  {
    AsWrittenWithoutServerMessage(e);
    NetworkErrorMentionsNetwork(e.message);
  }

  /** axios's message for an unreachable server mentions "Network". */
  lemma NetworkErrorMentionsNetwork(m: string)
    requires m == "Network Error"
    ensures Includes(m, "Network")
  {
    assert m[..7] == "Network";
  }

  /** A string without an upper-case N does not include "Network". */
  lemma {:induction false} NoNetworkIn(s: string)
    requires forall i :: 0 <= i < |s| ==> s[i] != 'N'
    ensures !Includes(s, "Network")
    decreases |s|
  {
    if 7 <= |s| {
      assert s[..7][0] == s[0];
    }
    if s != [] {
      NoNetworkIn(s[1..]);
    }
  }

  /** The submit button is disabled while registering or while the server is
      known to be offline. */
  function SubmitDisabled(loading: bool, status: ServerStatus): (d: bool)
    ensures d <==> loading || status == Offline
    ensures status == Checking ==> (d <==> loading)
  {
    loading || status == Offline
  }

  class RegisterForm {
    var name: string
    var email: string
    var password: string
    var confirmPassword: string
    var error: string
    var loading: bool
    var serverStatus: ServerStatus
    var location: Option<string>
    const auth: AuthContext.AuthProvider

    constructor (auth: AuthContext.AuthProvider)
      ensures this.auth == auth && name == "" && email == "" && password == "" && confirmPassword == ""
      ensures error == "" && !loading && serverStatus == Checking && location.None?
    {
      this.auth := auth;
      name, email, password, confirmPassword := "", "", "", "";
      error := "";
      loading := false;
      serverStatus := Checking;
      location := None;
    }

    /** The mount effect: the health probe decides online or offline. */
    method CheckServerStatus(reachable: bool)
      modifies this`serverStatus
      ensures serverStatus == if reachable then Online else Offline
    {
      if reachable {
        serverStatus := Online;
      } else {
        serverStatus := Offline;
      }
    }

    /** The provider's whole state. */
    function AuthState(): AuthSnapshot
      reads auth, auth.browser
    {
      AuthSnapshot(auth.user, auth.loading, auth.error, auth.browser.token, auth.browser.location)
    }

    /** The provider's state after `register` settles, from the state before it. */
    predicate RegisteredAs(response: CallOutcome<string>, me: CallOutcome<User>, before: AuthSnapshot)
      reads auth, auth.browser
    {
      && !auth.loading
      && (response.Ok? ==>
        && auth.user == AuthContext.UserAfterFetch(before.user, me) && auth.error == AuthContext.ErrorAfterFetch(me)
        && auth.browser.token == AuthContext.TokenAfterFetch(Some(response.value), me)
        && auth.browser.location == LocationAfterCall(before.location, me))
      && (response.Err? ==>
        && auth.user == before.user && auth.error == Some(MessageOr(response.error, AuthContext.RegisterFailed))
        && auth.browser.token == TokenAfter(before.token, response.error)
        && auth.browser.location == LocationAfter(before.location, response.error))
    }

    /** `handleSubmit`: clear the error, run the checks in order and stop at
        the first failure; otherwise register, then go to /app or show the
        classified error. `attempted` tells whether `register` was called.
        As written, a failed registration is classified from the error
        `register` throws, `new Error(message)`. */
    method HandleSubmit(response: CallOutcome<string>, me: CallOutcome<User>) returns (attempted: bool)
      modifies this`error, this`loading, this`location, auth, auth.browser
      ensures var v := ValidationError(name, email, password, confirmPassword, serverStatus);
        && (attempted <==> v.None?)
        && (v.Some? ==>
          && error == v.value && location == old(location) && loading == old(loading)
          && AuthState() == old(AuthState()))
      ensures attempted ==> !loading && RegisteredAs(response, me, old(AuthState()))
      ensures attempted && response.Ok? ==> location == Some("/app") && error == ""
      ensures attempted && response.Err? ==>
        && location == old(location)
        && error == RegistrationErrorMessage(AuthContext.RegisterRethrowAsWritten(response.error))
        && (error == CannotConnect || error == RegistrationFailed)
    {
      error := "";
      attempted := false;
      if name == "" || email == "" || password == "" || confirmPassword == "" {
        error := FillAllFields;
        return;
      }
      if password != confirmPassword {
        error := PasswordsDiffer;
        return;
      }
      if Utf16Length(password) < 6 {
        error := PasswordTooShort;
        return;
      }
      if serverStatus == Offline {
        error := ServerUnavailable;
        return;
      }
      loading := true;
      attempted := true;
      var thrown, _ := auth.Register(response, me);
      if thrown.None? {
        location := Some("/app");
      } else {
        error := RegistrationErrorMessage(thrown.value);
        AsWrittenShowsOnlyFixedTexts(response.error);
      }
      loading := false;
    }

    /** The corrected `handleSubmit`: the same checks, with the failure
        classified from the original error that the corrected `register`
        rethrows, so the server's message reaches the page. */
    method HandleSubmitCorrected(response: CallOutcome<string>, me: CallOutcome<User>) returns (attempted: bool)
      modifies this`error, this`loading, this`location, auth, auth.browser
      ensures var v := ValidationError(name, email, password, confirmPassword, serverStatus);
        && (attempted <==> v.None?)
        && (v.Some? ==>
          && error == v.value && location == old(location) && loading == old(loading)
          && AuthState() == old(AuthState()))
      ensures attempted ==> !loading && RegisteredAs(response, me, old(AuthState()))
      ensures attempted && response.Ok? ==> location == Some("/app") && error == ""
      ensures attempted && response.Err? ==>
        && location == old(location)
        && error == RegistrationErrorMessage(AuthContext.RegisterRethrow(response.error))
        && (HasServerMessage(response.error) ==> error == response.error.response.value.message.value)
    {
      var v := ValidationError(name, email, password, confirmPassword, serverStatus);
      attempted := v.None?;
      if v.Some? {
        error := v.value;
        return;
      }
      error := "";
      loading := true;
      var thrown, _ := auth.RegisterCorrected(response, me);
      if thrown.None? {
        location := Some("/app");
      } else {
        error := RegistrationErrorMessage(thrown.value);
      }
      loading := false;
    }
  }
}
