/** The forgot-password form (authentication/LostPassword.tsx): one e-mail
    field that must not be blank, the `forgot` request, and a result dialog
    whose closing leads to the login page after a successful request. */
module LostPassword {
  import opened Values
  import opened JsText
  import opened FieldRules
  import opened Dialogs
  import opened UsePasswordReset

  const MustInput := "You must input this field"
  const LinkSentText := "A password reset link has been sent to your email. Please check your inbox."
  const RequestErrorText := "Failed to send request. Please try again."

  /** The error object `validate` builds: the e-mail is only checked for
      blankness, never for its form. */
  function Errors(email: string): (e: map<Field, string>)
    ensures e.Keys <= {Email}
    ensures e == map[] <==> !IsBlank(email)
    ensures e != map[] ==> e[Email] == MustInput
  {
    var e := Put(map[], Email, BlankError(email, MustInput));
    assert IsBlank(email) ==> Email in e;
    e
  }

  class LostPasswordForm {
    var email: string
    var errors: map<Field, string>
    var openDialog: bool
    var dialogContent: Dialog
    /** The paths passed to `navigate`, oldest first. */
    var navigations: seq<string>
    const hook: PasswordResetHook

    constructor(hook: PasswordResetHook)
      ensures email == "" && errors == map[] && !openDialog && dialogContent == NoDialog
      ensures navigations == [] && this.hook == hook
    {
      email := "";
      errors := map[];
      openDialog := false;
      dialogContent := NoDialog;
      navigations := [];
      this.hook := hook;
    }

    /** `validate`: stores the error object and reports whether it is
        empty. */
    method Validate() returns (ok: bool)
      modifies this`errors
      ensures errors == Errors(email)
      ensures ok <==> !IsBlank(email)
    {
      var newErrors: map<Field, string> := map[];
      newErrors := AddBlankError(newErrors, Email, email, MustInput);
      errors := newErrors;
      ok := NoErrors(newErrors);
    }

    /** `handleEmailChange`: the value is stored and the e-mail error
        cleared. */
    method HandleEmailChange(value: string)
      modifies this`email, this`errors
      ensures email == value && errors == old(errors) - {Email}
    {
      email := value;
      errors := errors - {Email};
    }

    /** `handleSubmit` up to the request: `forgot` is started only when
        `validate` passes. The hook's `error` as this render saw it is
        returned, since the dialog shows that value. */
    method BeginSubmit() returns (started: bool, shownError: Option<string>)
      modifies this`errors, hook
      ensures errors == Errors(email)
      ensures started <==> !IsBlank(email)
      ensures shownError == old(hook.error)
      ensures started ==> hook.isLoading && hook.error == None && !hook.isSuccess
      ensures !started ==> hook.isLoading == old(hook.isLoading) && hook.error == old(hook.error)
                           && hook.isSuccess == old(hook.isSuccess)
    {
      shownError := hook.error;
      started := Validate();
      if started {
        hook.Begin();
      }
    }

    /** `handleSubmit` once `forgot` has settled: the dialog opens with the
        success text, or with the error the render saw (or a fixed text when
        there was none). */
    method FinishSubmit(shownError: Option<string>, outcome: Outcome<()>)
      modifies this`openDialog, this`dialogContent, hook
      ensures openDialog && !hook.isLoading
      ensures outcome.Ok? ==> dialogContent == Dialog(SuccessTitle, LinkSentText) && hook.isSuccess
                              && hook.error == old(hook.error)
      ensures outcome.Failed? ==>
                dialogContent == Dialog(ErrorTitle, TextOr(shownError, RequestErrorText))
                && hook.isSuccess == old(hook.isSuccess)
                && hook.error == Some(FailureText(outcome.message, ForgotFailed))
    {
      var success := hook.SettleForgot(outcome);
      if success {
        dialogContent := Dialog(SuccessTitle, LinkSentText);
      } else {
        dialogContent := Dialog(ErrorTitle, TextOr(shownError, RequestErrorText));
      }
      openDialog := true;
    }

    /** `handleCloseDialog`: close, and go to the login page when the hook
        reports success. */
    method HandleCloseDialog()
      modifies this`openDialog, this`navigations
      ensures !openDialog
      ensures navigations == old(navigations) + (if hook.isSuccess then ["/login"] else [])
    {
      openDialog := false;
      if hook.isSuccess {
        navigations := navigations + ["/login"];
      }
    }
  }

  /** A submit, its settling, and the closing of the dialog: the form leads
      to the login page exactly when the request was made and succeeded. */
  method SubmitAndClose(form: LostPasswordForm, outcome: Outcome<()>) returns (started: bool)
    modifies form, form.hook
    ensures started <==> !IsBlank(form.email)
    ensures started ==> form.navigations == old(form.navigations) + (if outcome.Ok? then ["/login"] else [])
    ensures !started ==> form.navigations == old(form.navigations)
  {
    var shownError;
    started, shownError := form.BeginSubmit();
    ghost var email := form.email;
    if started {
      form.FinishSubmit(shownError, outcome);
      form.HandleCloseDialog();
    }
    assert form.email == email;
  }
}
