/** The older login form (login_signup_page/loginform.tsx): the same
    `validate` as the current form, but no request at all: a passing form
    raises an alert and asks its parent to show the chat page. */
module LegacyLogin {
  import opened Values
  import opened FieldRules
  import LoginPage

  const LoggedInText := "Login successfully!!!"

  /** The parent's callbacks the form calls. */
  datatype Switch = ToSignup | ToLost | ToChatPage

  class LegacyLoginForm {
    var username: string
    var password: string
    var errors: map<Field, string>
    /** The texts passed to `alert`, oldest first. */
    var alerts: seq<string>
    /** The callbacks called, oldest first. */
    var switches: seq<Switch>

    constructor()
      ensures username == "" && password == "" && errors == map[] && alerts == [] && switches == []
    {
      username, password := "", "";
      errors := map[];
      alerts, switches := [], [];
    }

    /** `validate`, which builds the same error object as the current
        login form. */
    method Validate() returns (ok: bool)
      modifies this`errors
      ensures errors == LoginPage.Errors(username, password)
      ensures ok <==> errors == map[]
    {
      var newErrors: map<Field, string> := map[];
      newErrors := AddBlankError(newErrors, Username, username, UsernameRequired);
      newErrors := AddEmptyError(newErrors, Password, password, PasswordRequired);
      errors := newErrors;
      ok := NoErrors(newErrors);
    }

    method HandleUsernameChange(value: string)
      modifies this`username, this`errors
      ensures username == value && errors == old(errors) - {Username}
    {
      username := value;
      errors := errors - {Username};
    }

    method HandlePasswordChange(value: string)
      modifies this`password, this`errors
      ensures password == value && errors == old(errors) - {Password}
    {
      password := value;
      errors := errors - {Password};
    }

    /** `handleSubmit`: a passing form alerts and switches to the chat page;
        a failing one only shows its errors. */
    method HandleSubmit()
      modifies this`errors, this`alerts, this`switches
      ensures errors == LoginPage.Errors(username, password)
      ensures errors == map[] ==> alerts == old(alerts) + [LoggedInText] && switches == old(switches) + [ToChatPage]
      ensures errors != map[] ==> alerts == old(alerts) && switches == old(switches)
    {
      var ok := Validate();
      if ok {
        alerts := alerts + [LoggedInText];
        switches := switches + [ToChatPage];
      }
    }

    /** The "Lost password?" link. */
    method SwitchToLost()
      modifies this`switches
      ensures switches == old(switches) + [ToLost]
    {
      switches := switches + [ToLost];
    }

    /** The "Register" link. */
    method SwitchToSignup()
      modifies this`switches
      ensures switches == old(switches) + [ToSignup]
    {
      switches := switches + [ToSignup];
    }
  }
}
