/** The sign-in / sign-up modal: its mode follows the parent's `loginMode`,
    the form submits through the parent's `onLogin` or `onSignup`, and the
    link under the form switches modes. */
module LoginForm {
  import opened Records

  datatype Mode = Login | Signup

  /** Which parent callback a submission invoked, with its arguments. */
  datatype AuthCall = NoCall | LoginCall(email: string, password: string) | SignupCall(email: string, password: string, name: string)

  /** How the awaited callback settled: resolved, or rejected with a value
      that is an `Error` (`Some(message)`) or not (`None`). */
  datatype AuthOutcome = Resolved | Rejected(message: Option<string>)

  const NameMissingMessage := "Please enter your name"
  const AuthFallbackMessage := "Authentication failed"

  class LoginModal {
    var isSignup: bool
    var email: string
    var password: string
    var name: string
    var isLoading: bool
    var error: string

    twostate predicate FieldsUnchanged()
      reads this
    {
      email == old(email) && password == old(password) && name == old(name)
    }

    constructor ()
      ensures !isSignup && email == "" && password == "" && name == ""
      ensures !isLoading && error == ""
    {
      isSignup, email, password, name := false, "", "", "";
      isLoading, error := false, "";
    }

    /** The effect on `loginMode`: the modal's mode mirrors the prop. */
    method SyncMode(loginMode: Mode)
      modifies this
      ensures isSignup == (loginMode == Signup)
      ensures FieldsUnchanged() && error == old(error) && isLoading == old(isLoading)
    {
      isSignup := loginMode == Signup;
    }

    /** `handleSubmit`, with the awaited callback settling as `outcome`
        (read only when a callback is invoked). Sign-up without a name stops
        with its message and invokes nothing. Otherwise exactly one callback
        runs: on success the form is cleared and `onClose` is called; on
        failure the message is shown and the fields are kept. Loading ends on
        every path. */
    method HandleSubmit(outcome: AuthOutcome) returns (call: AuthCall, closeRequested: bool)
      modifies this
      ensures !isLoading && isSignup == old(isSignup)
      ensures old(isSignup) && old(name) == "" ==>
        call == NoCall && !closeRequested && error == NameMissingMessage && FieldsUnchanged()
      ensures !old(isSignup) ==> call == LoginCall(old(email), old(password))
      ensures old(isSignup) && old(name) != "" ==> call == SignupCall(old(email), old(password), old(name))
      ensures call != NoCall && outcome == Resolved ==>
        closeRequested && email == "" && password == "" && name == "" && error == ""
      ensures call != NoCall && outcome.Rejected? ==>
        && !closeRequested && FieldsUnchanged()
        && error == (if outcome.message.Some? then outcome.message.value else AuthFallbackMessage)
    {
      error, isLoading := "", true;
      closeRequested := false;
      if isSignup && name == "" {
        error, isLoading := NameMissingMessage, false;
        return NoCall, false;
      }
      call := if isSignup then SignupCall(email, password, name) else LoginCall(email, password);
      match outcome {
        case Resolved =>
          email, password, name := "", "", "";
          closeRequested := true;
        case Rejected(message) =>
          error := if message.Some? then message.value else AuthFallbackMessage;
      }
      isLoading := false;
    }

    /** The "Sign up" / "Sign in" link: flips the mode, reports the new mode
        to the parent, and clears the error. The mode it reports is the one
        the modal now shows, so the parent's echo through `SyncMode` leaves it
        unchanged. */
    method ToggleMode() returns (reported: Mode)
      modifies this
      ensures isSignup == !old(isSignup)
      ensures reported == (if old(isSignup) then Login else Signup)
      ensures isSignup == (reported == Signup)
      ensures error == "" && FieldsUnchanged() && isLoading == old(isLoading)
    {
      reported := if isSignup then Login else Signup;
      isSignup := !isSignup;
      error := "";
    }
  }
}
