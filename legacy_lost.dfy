/** The older forgot-password form (login_signup_page/lost_password.tsx):
    one username field that must not be blank, a direct `forgotPassword`
    call, and a browser alert for the result. */
module LegacyLost {
  import opened Values
  import opened JsText
  import opened FieldRules
  import LostPassword

  const CheckEmailText := "Please check your email for password reset instructions."
  const TryLaterText := "An error occurred. Please try again later."

  /** The error object `validate` builds, under the username key. */
  function Errors(username: string): (e: map<Field, string>)
    ensures e.Keys <= {Username}
  {
    Put(map[], Username, BlankError(username, LostPassword.MustInput))
  }

  /** The older form refuses exactly what the current one refuses, with the
      same message, under its own key. */
  lemma AgreesWithLostPassword(value: string)
    ensures Errors(value) == map[] <==> LostPassword.Errors(value) == map[]
    ensures Errors(value) != map[] ==> Errors(value)[Username] == LostPassword.Errors(value)[Email]
  {
    assert Username in Errors(value) <==> IsBlank(value);
  }

  class LegacyLostForm {
    var username: string
    var errors: map<Field, string>
    /** The texts passed to `alert`, oldest first. */
    var alerts: seq<string>
    /** How many times the "Turn back" link asked for the login form. */
    var loginSwitches: nat

    constructor()
      ensures username == "" && errors == map[] && alerts == [] && loginSwitches == 0
    {
      username := "";
      errors := map[];
      alerts := [];
      loginSwitches := 0;
    }

    /** `validate`: stores the error object and reports whether it is
        empty. */
    method Validate() returns (ok: bool)
      modifies this`errors
      ensures errors == Errors(username)
      ensures ok <==> !IsBlank(username)
    {
      var newErrors: map<Field, string> := map[];
      newErrors := AddBlankError(newErrors, Username, username, LostPassword.MustInput);
      errors := newErrors;
      ok := NoErrors(newErrors);
    }

    method HandleUsernameChange(value: string)
      modifies this`username, this`errors
      ensures username == value && errors == old(errors) - {Username}
    {
      username := value;
      errors := errors - {Username};
    }

    /** `handleSubmit` up to the request: `forgotPassword(username)` only
        when `validate` passes. */
    method Submit() returns (request: Option<string>)
      modifies this`errors
      ensures errors == Errors(username)
      ensures request.Some? <==> !IsBlank(username)
      ensures request.Some? ==> request.value == username
    {
      var ok := Validate();
      request := if ok then Some(username) else None;
    }

    /** `forgotPassword` settled: one alert either way. */
    method Settled(succeeded: bool)
      modifies this`alerts
      ensures alerts == old(alerts) + [if succeeded then CheckEmailText else TryLaterText]
    {
      if succeeded {
        alerts := alerts + [CheckEmailText];
      } else {
        alerts := alerts + [TryLaterText];
      }
    }

    method SwitchToLogin()
      modifies this`loginSwitches
      ensures loginSwitches == old(loginSwitches) + 1
    {
      loginSwitches := loginSwitches + 1;
    }
  }
}
