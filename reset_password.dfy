/** The reset-password form (authentication/ResetPassword.tsx): e-mail,
    temporary password, new password and its confirmation, checked by
    `validate` before `reset` is called, then a result dialog whose closing
    leads to the login page after a successful reset. */
module ResetPassword {
  import opened Values
  import opened EmailPatterns
  import opened FieldRules
  import opened Dialogs
  import opened UsePasswordReset

  const ResetDoneText := "Password has been reset successfully. Please log in with your new password."
  const ResetErrorText := "Failed to reset password. Please try again."

  const Fields: set<Field> := {Email, TempPassword, Password, ConfirmPassword}

  /** The error object `validate` builds. The e-mail is checked against the
      loose `\S+@\S+\.\S+` pattern, and only for emptiness, not blankness. */
  function Errors(email: string, tempPassword: string, password: string, confirm: string): (e: map<Field, string>)
    ensures e.Keys <= Fields
  {
    var e0 := Put(map[], Email, LooseEmailError(email));
    var e1 := Put(e0, TempPassword, PasswordError(tempPassword));
    var e2 := Put(e1, Password, PasswordError(password));
    Put(e2, ConfirmPassword, ConfirmError(confirm, password))
  }

  /** `validate` passes exactly when the e-mail contains a loose address,
      both passwords have at least six characters and the confirmation
      equals the new password. */
  lemma ValidIff(email: string, tempPassword: string, password: string, confirm: string)
    ensures Errors(email, tempPassword, password, confirm) == map[] <==>
              HasLooseAddress(email) && |tempPassword| >= MinPasswordLength
              && |password| >= MinPasswordLength && confirm == password
  {
    var e := Errors(email, tempPassword, password, confirm);
    if e == map[] {
      assert Email !in e && TempPassword !in e && Password !in e && ConfirmPassword !in e;
    }
  }

  /** The temporary password obeys the same rule as the new one, under its
      own key: a short temporary password alone fails the form. */
  lemma ShortTemporaryPasswordRefused(email: string, tempPassword: string, password: string, confirm: string)
    requires 0 < |tempPassword| < MinPasswordLength
    ensures Errors(email, tempPassword, password, confirm)[TempPassword] == PasswordTooShort
  {
  }

  class ResetPasswordForm {
    var email: string
    var tempPassword: string
    var password: string
    var confirmPassword: string
    var errors: map<Field, string>
    var openDialog: bool
    var dialogContent: Dialog
    /** The paths passed to `navigate`, oldest first. */
    var navigations: seq<string>
    const hook: PasswordResetHook

    constructor(hook: PasswordResetHook)
      ensures email == "" && tempPassword == "" && password == "" && confirmPassword == ""
      ensures errors == map[] && !openDialog && dialogContent == NoDialog && navigations == []
      ensures this.hook == hook
    {
      email, tempPassword, password, confirmPassword := "", "", "", "";
      errors := map[];
      openDialog := false;
      dialogContent := NoDialog;
      navigations := [];
      this.hook := hook;
    }

    /** A field's `onChange`: the value is stored and that field's error,
        and no other, is cleared. */
    method Edit(f: Field, value: string)
      requires f in Fields
      modifies this`email, this`tempPassword, this`password, this`confirmPassword, this`errors
      ensures errors == old(errors) - {f}
      ensures email == (if f == Email then value else old(email))
      ensures tempPassword == (if f == TempPassword then value else old(tempPassword))
      ensures password == (if f == Password then value else old(password))
      ensures confirmPassword == (if f == ConfirmPassword then value else old(confirmPassword))
    {
      match f {
        case Email => email := value;
        case TempPassword => tempPassword := value;
        case Password => password := value;
        case ConfirmPassword => confirmPassword := value;
      }
      errors := errors - {f};
    }

    /** `validate`: fills a fresh error object field by field, stores it,
        and reports whether it is empty. */
    method Validate() returns (ok: bool)
      modifies this`errors
      ensures errors == Errors(email, tempPassword, password, confirmPassword)
      ensures ok <==> errors == map[]
    {
      var newErrors: map<Field, string> := map[];
      newErrors := AddLooseEmailError(newErrors, email);
      newErrors := AddPasswordError(newErrors, TempPassword, tempPassword);
      newErrors := AddPasswordError(newErrors, Password, password);
      newErrors := AddConfirmError(newErrors, confirmPassword, password);
      errors := newErrors;
      ok := NoErrors(newErrors);
    }

    /** `handleSubmit` up to the request: `reset` is started only when
        `validate` passes. The hook's `error` as this render saw it is
        returned, since the dialog shows that value. */
    method BeginSubmit() returns (started: bool, shownError: Option<string>)
      modifies this`errors, hook
      ensures errors == Errors(email, tempPassword, password, confirmPassword)
      ensures started <==> errors == map[]
      ensures shownError == old(hook.error)
      ensures started ==> hook.isLoading && hook.error == None && !hook.isSuccess
      ensures !started ==> hook.isLoading == old(hook.isLoading) && hook.error == old(hook.error)
                           && hook.isSuccess == old(hook.isSuccess)
    {
      shownError := hook.error;
      started := Validate();
      if started {
        hook.Begin();
      }
    }

    /** `handleSubmit` once `reset` has settled: the dialog opens with the
        success text, or with the error the render saw (or a fixed text when
        there was none). */
    method FinishSubmit(shownError: Option<string>, outcome: Outcome<()>)
      modifies this`openDialog, this`dialogContent, hook
      ensures openDialog && !hook.isLoading
      ensures outcome.Ok? ==> dialogContent == Dialog(SuccessTitle, ResetDoneText) && hook.isSuccess
                              && hook.error == old(hook.error)
      ensures outcome.Failed? ==>
                dialogContent == Dialog(ErrorTitle, TextOr(shownError, ResetErrorText))
                && hook.isSuccess == old(hook.isSuccess)
                && hook.error == Some(FailureText(outcome.message, ResetFailed))
    {
      var success := hook.SettleReset(outcome);
      if success {
        dialogContent := Dialog(SuccessTitle, ResetDoneText);
      } else {
        dialogContent := Dialog(ErrorTitle, TextOr(shownError, ResetErrorText));
      }
      openDialog := true;
    }

    /** `handleCloseDialog`: close, and go to the login page when the hook
        reports success. */
    method HandleCloseDialog()
      modifies this`openDialog, this`navigations
      ensures !openDialog
      ensures navigations == old(navigations) + (if hook.isSuccess then ["/login"] else [])
    {
      openDialog := false;
      if hook.isSuccess {
        navigations := navigations + ["/login"];
      }
    }

    /** The "Turn back" link. */
    method TurnBack()
      modifies this`navigations
      ensures navigations == old(navigations) + ["/login"]
    {
      navigations := navigations + ["/login"];
    }
  }

  /** A submit that passes `validate`, its settling, and the closing of the
      dialog: the form leads to the login page exactly when the reset
      succeeded, whatever an earlier attempt left in the hook. */
  method SubmitAndClose(form: ResetPasswordForm, outcome: Outcome<()>) returns (started: bool)
    modifies form, form.hook
    ensures started <==> form.errors == map[]
    ensures started ==> form.navigations == old(form.navigations) + (if outcome.Ok? then ["/login"] else [])
    ensures !started ==> form.navigations == old(form.navigations)
  {
    var shownError;
    started, shownError := form.BeginSubmit();
    if started {
      form.FinishSubmit(shownError, outcome);
      form.HandleCloseDialog();
    }
  }
}
