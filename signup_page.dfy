/** The sign-up form (authentication/SignupPage.tsx): `validate`, the
    submit that calls `registerUser` only after it passes, the result
    dialog, and the navigation when the dialog is closed. */
module SignupPage {
  import opened Values
  import opened JsText
  import opened EmailPatterns
  import opened FieldRules
  import opened Dialogs
  import UseAuthentication

  const FullNameRequired := "Full name is required"
  const CreatedText := "Your account has been created successfully."
  const RegistrationErrorText := "An unexpected error occurred during registration."

  const Fields: set<Field> := {Email, FullName, Password, ConfirmPassword}

  /** The error object `validate` builds: each field's rule contributes at
      most one message. */
  function Errors(email: string, fullName: string, password: string, confirm: string): (e: map<Field, string>)
    ensures e.Keys <= Fields
  {
    var e0 := Put(map[], Email, StrictEmailError(email));
    var e1 := Put(e0, FullName, BlankError(fullName, FullNameRequired));
    var e2 := Put(e1, Password, PasswordError(password));
    Put(e2, ConfirmPassword, ConfirmError(confirm, password))
  }

  /** The rules `validate` runs, in order, on a fresh error object. */
  method Validation(email: string, fullName: string, password: string, confirm: string)
    returns (e: map<Field, string>)
    ensures e == Errors(email, fullName, password, confirm)
  {
    e := AddStrictEmailError(map[], email);
    e := AddBlankError(e, FullName, fullName, FullNameRequired);
    e := AddPasswordError(e, Password, password);
    e := AddConfirmError(e, confirm, password);
  }

  /** `validate` passes exactly when the e-mail is well formed, the full
      name is not blank, the password has at least six characters and the
      confirmation equals it. */
  lemma ValidIff(email: string, fullName: string, password: string, confirm: string)
    ensures Errors(email, fullName, password, confirm) == map[] <==>
              WellFormedAddress(email) && !IsBlank(fullName)
              && |password| >= MinPasswordLength && confirm == password
  {
    var e := Errors(email, fullName, password, confirm);
    if WellFormedAddress(email) {
      assert !IsBlank(email) by { var at :| 0 < at < |email| && OnlyAtSign(email, at); assert !IsSpace(email[at]); }
    }
    if e == map[] {
      assert Email !in e && FullName !in e && Password !in e && ConfirmPassword !in e;
    }
  }

  class SignupForm {
    var email: string
    var fullName: string
    var password: string
    var confirmPassword: string
    var errors: map<Field, string>
    var openDialog: bool
    var dialogContent: Dialog
    /** The paths passed to `navigate`, oldest first. */
    var navigations: seq<string>
    const auth: UseAuthentication.AuthHook

    constructor(auth: UseAuthentication.AuthHook)
      ensures email == "" && fullName == "" && password == "" && confirmPassword == ""
      ensures errors == map[] && !openDialog && dialogContent == NoDialog && navigations == []
      ensures this.auth == auth
    {
      email, fullName, password, confirmPassword := "", "", "", "";
      errors := map[];
      openDialog := false;
      dialogContent := NoDialog;
      navigations := [];
      this.auth := auth;
    }

    /** A field's `onChange`: the value is stored and that field's error,
        and no other, is cleared. */
    method Edit(f: Field, value: string)
      requires f in Fields
      modifies this`email, this`fullName, this`password, this`confirmPassword, this`errors
      ensures errors == old(errors) - {f}
      ensures email == (if f == Email then value else old(email))
      ensures fullName == (if f == FullName then value else old(fullName))
      ensures password == (if f == Password then value else old(password))
      ensures confirmPassword == (if f == ConfirmPassword then value else old(confirmPassword))
    {
      match f {
        case Email => email := value;
        case FullName => fullName := value;
        case Password => password := value;
        case ConfirmPassword => confirmPassword := value;
      }
      errors := errors - {f};
    }

    /** `validate`: fills a fresh error object field by field, stores it,
        and reports whether it is empty. */
    method Validate() returns (ok: bool)
      modifies this`errors
      ensures errors == Errors(email, fullName, password, confirmPassword)
      ensures ok <==> errors == map[]
    {
      var newErrors := Validation(email, fullName, password, confirmPassword);
      ok := NoErrors(newErrors);
      errors := newErrors;
    }

    /** `handleSubmit` up to the request: `registerUser` is started only
        when `validate` passes. The hook's `error` as this render saw it is
        returned, since the dialog shows that value. */
    method BeginSubmit() returns (started: bool, shownError: Option<string>)
      modifies this`errors, auth
      ensures errors == Errors(email, fullName, password, confirmPassword)
      ensures started <==> errors == map[]
      ensures shownError == old(auth.error)
      ensures started ==> auth.isLoading && auth.error == None && auth.accessToken == old(auth.accessToken)
      ensures !started ==> auth.isLoading == old(auth.isLoading) && auth.error == old(auth.error)
                           && auth.accessToken == old(auth.accessToken)
    {
      shownError := auth.error;
      started := Validate();
      if started {
        auth.Begin();
      }
    }

    /** `handleSubmit` once `registerUser` has settled: the dialog opens
        with the success text, or with the error the render saw (or a
        fixed text when there was none). */
    method FinishSubmit(shownError: Option<string>, outcome: Outcome<UseAuthentication.RegisterResponse>)
      modifies this`openDialog, this`dialogContent, auth
      ensures openDialog && !auth.isLoading && auth.accessToken == old(auth.accessToken)
      ensures outcome.Ok? ==> dialogContent == Dialog(SuccessTitle, CreatedText) && auth.error == old(auth.error)
      ensures outcome.Failed? ==>
                dialogContent == Dialog(ErrorTitle, TextOr(shownError, RegistrationErrorText))
                && auth.error == Some(UseAuthentication.RegistrationFailed)
    {
      var data := auth.SettleRegister(outcome);
      if data.Some? {
        dialogContent := Dialog(SuccessTitle, CreatedText);
      } else {
        dialogContent := Dialog(ErrorTitle, TextOr(shownError, RegistrationErrorText));
      }
      openDialog := true;
    }

    /** `handleCloseDialog`: close, and go to the login page only after a
        successful registration. */
    method HandleCloseDialog()
      modifies this`openDialog, this`navigations
      ensures !openDialog
      ensures navigations == old(navigations) + (if dialogContent.title == SuccessTitle then ["/login"] else [])
    {
      openDialog := false;
      if dialogContent.title == SuccessTitle {
        navigations := navigations + ["/login"];
      }
    }
  }
}
