/** The older sign-up form (login_signup_page/signupform.tsx): the same
    `validate` as the current form with a username in place of the full
    name, a direct `register` call, and a browser alert for the result. */
module LegacySignup {
  import opened Values
  import opened JsText
  import opened EmailPatterns
  import opened FieldRules
  import HandleErrors
  import SignupPage

  const RegisteredText := "Registered successfully!"

  const Fields: set<Field> := {Email, Username, Password, ConfirmPassword}

  /** The arguments of `register(email, username, password)`. */
  datatype RegisterRequest = RegisterRequest(email: string, username: string, password: string)

  /** The error object `validate` builds. */
  function Errors(email: string, username: string, password: string, confirm: string): (e: map<Field, string>)
    ensures e.Keys <= Fields
  {
    var e0 := Put(map[], Email, StrictEmailError(email));
    var e1 := Put(e0, Username, BlankError(username, UsernameRequired));
    var e2 := Put(e1, Password, PasswordError(password));
    Put(e2, ConfirmPassword, ConfirmError(confirm, password))
  }

  /** The rules `validate` runs, in order, on a fresh error object. */
  method Validation(email: string, username: string, password: string, confirm: string)
    returns (e: map<Field, string>)
    ensures e == Errors(email, username, password, confirm)
  {
    e := AddStrictEmailError(map[], email);
    e := AddBlankError(e, Username, username, UsernameRequired);
    e := AddPasswordError(e, Password, password);
    e := AddConfirmError(e, confirm, password);
  }

  /** The two sign-up forms judge a submission alike: the shared fields get
      the same message, the username gets an error exactly when the full
      name in its place would, and so one passes exactly when the other
      does. */
  lemma {:induction false} AgreesWithSignupPage(email: string, name: string, password: string, confirm: string)
    ensures var a := Errors(email, name, password, confirm);
            var b := SignupPage.Errors(email, name, password, confirm);
            (forall f :: f in {Email, Password, ConfirmPassword} ==> (f in a <==> f in b) && (f in a ==> a[f] == b[f]))
            && (Username in a <==> FullName in b)
            && (a == map[] <==> b == map[])
  {
    var a := Errors(email, name, password, confirm);
    var b := SignupPage.Errors(email, name, password, confirm);
    assert Username in a <==> IsBlank(name);
    assert FullName in b <==> IsBlank(name);
    if a == map[] {
      assert Email !in a && Password !in a && ConfirmPassword !in a;
    }
    if b == map[] {
      assert Email !in b && Password !in b && ConfirmPassword !in b;
    }
  }

  class LegacySignupForm {
    var email: string
    var username: string
    var password: string
    var confirmPassword: string
    var errors: map<Field, string>
    /** The texts passed to `alert`, oldest first. */
    var alerts: seq<string>

    constructor()
      ensures email == "" && username == "" && password == "" && confirmPassword == ""
      ensures errors == map[] && alerts == []
    {
      email, username, password, confirmPassword := "", "", "", "";
      errors := map[];
      alerts := [];
    }

    /** A field's `onChange`: the value is stored and that field's error,
        and no other, is cleared. */
    method Edit(f: Field, value: string)
      requires f in Fields
      modifies this`email, this`username, this`password, this`confirmPassword, this`errors
      ensures errors == old(errors) - {f}
      ensures email == (if f == Email then value else old(email))
      ensures username == (if f == Username then value else old(username))
      ensures password == (if f == Password then value else old(password))
      ensures confirmPassword == (if f == ConfirmPassword then value else old(confirmPassword))
    {
      match f {
        case Email => email := value;
        case Username => username := value;
        case Password => password := value;
        case ConfirmPassword => confirmPassword := value;
      }
      errors := errors - {f};
    }

    /** `validate`: fills a fresh error object field by field, stores it,
        and reports whether it is empty. */
    method Validate() returns (ok: bool)
      modifies this`errors
      ensures errors == Errors(email, username, password, confirmPassword)
      ensures ok <==> errors == map[]
    {
      var newErrors := Validation(email, username, password, confirmPassword);
      ok := NoErrors(newErrors);
      errors := newErrors;
    }

    /** `handleSubmit` up to the request: `register` is called with the
        form's values only when `validate` passes. */
    method Submit() returns (request: Option<RegisterRequest>)
      modifies this`errors
      ensures errors == Errors(email, username, password, confirmPassword)
      ensures request.Some? <==> errors == map[]
      ensures request.Some? ==> request.value == RegisterRequest(email, username, password)
    {
      var ok := Validate();
      if ok {
        request := Some(RegisterRequest(email, username, password));
      } else {
        request := None;
      }
    }

    /** `register` resolved. */
    method Registered()
      modifies this`alerts
      ensures alerts == old(alerts) + [RegisteredText]
    {
      alerts := alerts + [RegisteredText];
    }

    /** `register` threw: the alert `handleErrors` picks for registration. */
    method RegisterFailed(e: HandleErrors.Thrown)
      modifies this`alerts
      ensures alerts == old(alerts) + [HandleErrors.AlertText(HandleErrors.Register, HandleErrors.Extract(e))]
    {
      var report := HandleErrors.HandleErrors(e, HandleErrors.Register);
      alerts := alerts + [report.alert];
    }
  }
}
