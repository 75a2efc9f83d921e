/** The password-reset request page of `src/pages/ForgotPassword.tsx`: the
    idle / submitting / success / error machine of `handleSubmit`, the error
    text it shows and what the page renders in each state. The request goes
    through `AuthContext.AuthProvider.ForgotPassword`; its outcome is a
    parameter. */
module ForgotPasswordPage {
  import opened Js
  import opened Api
  import AuthContext

  datatype Status = Idle | Submitting | Success | Error

  const EnterEmail := "Please enter your email address"
  const GenericFailure := "An error occurred. Please try again."

  /** `err.message || fallback`: the thrown message unless it is empty. */
  function ErrorText(err: ApiError): (m: string)
    ensures err.message != "" ==> m == err.message
    ensures err.message == "" ==> m == GenericFailure
    ensures m != ""
  {
    if err.message != "" then err.message else GenericFailure
  }

  /** An error thrown by the context always carries a non-empty message (the
      server's or "Failed to process request"), so the page's own fallback
      text is never the one chosen. */
  lemma ContextErrorTextIsContextMessage(e: ApiError)
    ensures ErrorText(Rethrown(e, AuthContext.ForgotFailed)) == MessageOr(e, AuthContext.ForgotFailed)
    ensures !HasServerMessage(e) ==> ErrorText(Rethrown(e, AuthContext.ForgotFailed)) == AuthContext.ForgotFailed
  {
  }

  /** The error box is shown exactly in the error state. */
  function ShowsError(status: Status): (shown: bool)
    ensures shown <==> status == Error
  {
    status == Error
  }

  /** In the success state the form is replaced by the confirmation. */
  function ShowsConfirmation(status: Status): (shown: bool)
    ensures shown <==> status == Success
  {
    status == Success
  }

  /** The submit button is disabled exactly while the request is pending. */
  function SubmitDisabled(status: Status): (d: bool)
    ensures d <==> status == Submitting
    ensures d ==> !ShowsConfirmation(status) && !ShowsError(status)
  {
    status == Submitting
  }

  class ForgotPasswordForm {
    var email: string
    var status: Status
    var errorMessage: string
    const auth: AuthContext.AuthProvider

    constructor (auth: AuthContext.AuthProvider)
      ensures this.auth == auth && email == "" && status == Idle && errorMessage == ""
    {
      this.auth := auth;
      email := "";
      status := Idle;
      errorMessage := "";
    }

    /** The synchronous part of `handleSubmit`: an empty email is an error
        and no request; otherwise the page goes to "submitting". */
    method Submit() returns (requested: bool)
      modifies this`status, this`errorMessage
      ensures requested <==> email != ""
      ensures !requested ==> status == Error && errorMessage == EnterEmail
      ensures requested ==> status == Submitting && errorMessage == old(errorMessage)
    {
      if email == "" {
        status := Error;
        errorMessage := EnterEmail;
        requested := false;
        return;
      }
      status := Submitting;
      requested := true;
    }

    /** The awaited request: success, or the error state with the thrown
        message. The error text of an earlier failure is left in place on
        success. */
    method Resolve(response: CallOutcome<()>)
      modifies this`status, this`errorMessage, auth, auth.browser
      ensures response.Ok? ==> status == Success && errorMessage == old(errorMessage)
      ensures response.Err? ==>
        && status == Error
        && errorMessage == ErrorText(Rethrown(response.error, AuthContext.ForgotFailed))
      ensures auth.user == old(auth.user) && !auth.loading
      ensures auth.browser.token == TokenAfterCall(old(auth.browser.token), response)
      ensures auth.browser.location == LocationAfterCall(old(auth.browser.location), response)
      ensures auth.error == (if response.Ok? then old(auth.error) else Some(MessageOr(response.error, AuthContext.ForgotFailed)))
    {
      var thrown := auth.ForgotPassword(response);
      if thrown.None? {
        status := Success;
      } else {
        status := Error;
        errorMessage := ErrorText(thrown.value);
      }
    }

    /** `handleSubmit`: `Submit`, then `Resolve` when a request was made. */
    method HandleSubmit(response: CallOutcome<()>) returns (requested: bool)
      modifies this`status, this`errorMessage, auth, auth.browser
      ensures requested <==> email != ""
      ensures !requested ==> status == Error && errorMessage == EnterEmail && unchanged(auth, auth.browser)
      ensures requested && response.Ok? ==> status == Success && errorMessage == old(errorMessage)
      ensures requested && response.Err? ==>
        && status == Error
        && errorMessage == MessageOr(response.error, AuthContext.ForgotFailed)
      ensures requested ==>
        && auth.user == old(auth.user) && !auth.loading
        && auth.browser.token == TokenAfterCall(old(auth.browser.token), response)
        && auth.browser.location == LocationAfterCall(old(auth.browser.location), response)
        && auth.error == (if response.Ok? then old(auth.error) else Some(MessageOr(response.error, AuthContext.ForgotFailed)))
    {
      requested := Submit();
      if requested {
        Resolve(response);
        if response.Err? {
          ContextErrorTextIsContextMessage(response.error);
        }
      }
    }
  }
}
