/** The older reset-password form (login_signup_page/reset_password.tsx):
    the same `validate` as the current form, then `resetPassword` followed
    by a `login` with the new password, and the user's chat page. */
module LegacyReset {
  import opened Values
  import opened FieldRules
  import ResetPassword

  /** The arguments of `resetPassword(email, tempPassword, password)`. */
  datatype ResetRequest = ResetRequest(email: string, tempPassword: string, newPassword: string)

  /** The arguments of `login(email, password)`. */
  datatype LoginRequest = LoginRequest(username: string, password: string)

  class LegacyResetForm {
    var email: string
    var tempPassword: string
    var password: string
    var confirmPassword: string
    var errors: map<Field, string>
    /** The paths passed to `navigate`, oldest first. */
    var navigations: seq<string>

    constructor()
      ensures email == "" && tempPassword == "" && password == "" && confirmPassword == ""
      ensures errors == map[] && navigations == []
    {
      email, tempPassword, password, confirmPassword := "", "", "", "";
      errors := map[];
      navigations := [];
    }

    /** A field's `onChange`: the value is stored and that field's error,
        and no other, is cleared. */
    method Edit(f: Field, value: string)
      requires f in ResetPassword.Fields
      modifies this`email, this`tempPassword, this`password, this`confirmPassword, this`errors
      ensures errors == old(errors) - {f}
      ensures email == (if f == Email then value else old(email))
      ensures tempPassword == (if f == TempPassword then value else old(tempPassword))
      ensures password == (if f == Password then value else old(password))
      ensures confirmPassword == (if f == ConfirmPassword then value else old(confirmPassword))
    {
      match f {
        case Email => email := value;
        case TempPassword => tempPassword := value;
        case Password => password := value;
        case ConfirmPassword => confirmPassword := value;
      }
      errors := errors - {f};
    }

    /** `validate`, which builds the same error object as the current
        reset-password form. */
    method Validate() returns (ok: bool)
      modifies this`errors
      ensures errors == ResetPassword.Errors(email, tempPassword, password, confirmPassword)
      ensures ok <==> errors == map[]
    {
      var newErrors: map<Field, string> := map[];
      newErrors := AddLooseEmailError(newErrors, email);
      newErrors := AddPasswordError(newErrors, TempPassword, tempPassword);
      newErrors := AddPasswordError(newErrors, Password, password);
      newErrors := AddConfirmError(newErrors, confirmPassword, password);
      errors := newErrors;
      ok := NoErrors(newErrors);
    }

    /** `handleSubmit` up to the first request: `resetPassword` only when
        `validate` passes. */
    method Submit() returns (request: Option<ResetRequest>)
      modifies this`errors
      ensures errors == ResetPassword.Errors(email, tempPassword, password, confirmPassword)
      ensures request.Some? <==> errors == map[]
      ensures request.Some? ==> request.value == ResetRequest(email, tempPassword, password)
    {
      var ok := Validate();
      if ok {
        request := Some(ResetRequest(email, tempPassword, password));
      } else {
        request := None;
      }
    }

    /** `resetPassword` settled: on success the form signs in with the
        e-mail as the username and the new password; a failure is only
        logged. */
    method ResetSettled(succeeded: bool) returns (login: Option<LoginRequest>)
      ensures login.Some? <==> succeeded
      ensures login.Some? ==> login.value == LoginRequest(email, password)
    {
      if succeeded {
        login := Some(LoginRequest(email, password));
      } else {
        login := None;
      }
    }

    /** `login` settled, with the username of the session's user or a
        failure: the user's chat page on success, nothing otherwise. */
    method LoginSettled(outcome: Outcome<string>)
      modifies this`navigations
      ensures navigations == old(navigations) + (if outcome.Ok? then ["/chat/" + outcome.value] else [])
    {
      if outcome.Ok? {
        navigations := navigations + ["/chat/" + outcome.value];
      }
    }

    /** The "Turn back" link. */
    method TurnBack()
      modifies this`navigations
      ensures navigations == old(navigations) + ["/login"]
    {
      navigations := navigations + ["/login"];
    }
  }

  /** The whole submit: the chat page is reached only when the form passes
      `validate`, the reset succeeds and the sign-in succeeds, and then it
      is the page of the user the sign-in names. */
  method SubmitResetLogin(form: LegacyResetForm, resetOk: bool, login: Outcome<string>)
    modifies form
    ensures var passed := ResetPassword.Errors(form.email, form.tempPassword, form.password, form.confirmPassword) == map[];
            form.navigations == old(form.navigations) + (if passed && resetOk && login.Ok? then ["/chat/" + login.value] else [])
  {
    var request := form.Submit();
    if request.Some? {
      var next := form.ResetSettled(resetOk);
      if next.Some? {
        form.LoginSettled(login);
      }
    }
  }
}
