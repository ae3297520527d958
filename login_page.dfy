/** The login form (authentication/LoginPage.tsx): the session check on
    mount that skips the form for a signed-in user, `validate`, and the
    submit that calls `loginUser` and goes home when it returns data. */
module LoginPage {
  import opened Values
  import opened JsText
  import opened FieldRules
  import UseAuthentication

  const RecoveryTitle := "Password Recovery"
  const RecoveryText := "Your password reset request has been submitted. Please check your email at example@vgu.edu.vn."

  const Fields: set<Field> := {Username, Password}

  /** The error object `validate` builds: a blank username and an empty
      password are refused; the password length is not checked here. */
  function Errors(username: string, password: string): (e: map<Field, string>)
    ensures e.Keys <= Fields
  {
    var e0 := Put(map[], Username, BlankError(username, UsernameRequired));
    Put(e0, Password, EmptyError(password, PasswordRequired))
  }

  /** `validate` passes exactly when the username has a non-space
      character and the password is not empty. */
  lemma ValidIff(username: string, password: string)
    ensures Errors(username, password) == map[] <==> !IsBlank(username) && password != ""
  {
    var e := Errors(username, password);
    if e == map[] {
      assert Username !in e && Password !in e;
    }
  }

  /** The page the session check leads to: the chat page of the user the
      profile names, or none when there is no session or the request
      failed. */
  function SessionTarget(profile: Outcome<Option<string>>): (r: Option<string>)
    ensures r.Some? <==> profile.Ok? && profile.value.Some?
    ensures r.Some? ==> r.value == "/chat/" + profile.value.value
  {
    if profile.Ok? && profile.value.Some? then Some("/chat/" + profile.value.value) else None
  }

  class LoginForm {
    var username: string
    var password: string
    var errors: map<Field, string>
    /** While true the page shows only a spinner. */
    var checkingSession: bool
    var openAlertDialog: bool
    /** The paths passed to `navigate`, oldest first. */
    var navigations: seq<string>
    const auth: UseAuthentication.AuthHook

    constructor(auth: UseAuthentication.AuthHook)
      ensures username == "" && password == "" && errors == map[]
      ensures checkingSession && !openAlertDialog && navigations == []
      ensures this.auth == auth
    {
      username, password := "", "";
      errors := map[];
      checkingSession := true;
      openAlertDialog := false;
      navigations := [];
      this.auth := auth;
    }

    /** The mount effect once `getProfile` has settled (the profile's
        `session.user.username`, or a failure): a signed-in user is sent to
        their chat page, and the form is shown in every case. */
    method SessionChecked(profile: Outcome<Option<string>>)
      modifies this`checkingSession, this`navigations
      ensures !checkingSession
      ensures navigations == old(navigations) + (if SessionTarget(profile).Some? then [SessionTarget(profile).value] else [])
    {
      if profile.Ok? && profile.value.Some? {
        navigations := navigations + ["/chat/" + profile.value.value];
      }
      checkingSession := false;
    }

    /** A field's `onChange`: the value is stored and that field's error,
        and no other, is cleared. */
    method Edit(f: Field, value: string)
      requires f in Fields
      modifies this`username, this`password, this`errors
      ensures errors == old(errors) - {f}
      ensures username == (if f == Username then value else old(username))
      ensures password == (if f == Password then value else old(password))
    {
      if f == Username {
        username := value;
      } else {
        password := value;
      }
      errors := errors - {f};
    }

    /** `validate`: fills a fresh error object, stores it, and reports
        whether it is empty. */
    method Validate() returns (ok: bool)
      modifies this`errors
      ensures errors == Errors(username, password)
      ensures ok <==> errors == map[]
    {
      var newErrors: map<Field, string> := map[];
      newErrors := AddBlankError(newErrors, Username, username, UsernameRequired);
      newErrors := AddEmptyError(newErrors, Password, password, PasswordRequired);
      errors := newErrors;
      ok := NoErrors(newErrors);
    }

    /** `handleSubmit` up to the request: `loginUser` is started only when
        `validate` passes. */
    method BeginSubmit() returns (started: bool)
      modifies this`errors, auth
      ensures errors == Errors(username, password)
      ensures started <==> errors == map[]
      ensures started ==> auth.isLoading && auth.error == None && auth.accessToken == old(auth.accessToken)
      ensures !started ==> auth.isLoading == old(auth.isLoading) && auth.error == old(auth.error)
                           && auth.accessToken == old(auth.accessToken)
    {
      started := Validate();
      if started {
        auth.Begin();
      }
    }

    /** `handleSubmit` once `loginUser` has settled: a navigation to "/"
        (the route of the welcome page, not of the chat home at "/home")
        when it returned data, nothing else otherwise (the hook's error is
        shown under the form). */
    method FinishSubmit(outcome: Outcome<UseAuthentication.LoginResponse>)
      modifies this`navigations, auth
      ensures !auth.isLoading
      ensures navigations == old(navigations) + (if outcome.Ok? then ["/"] else [])
      ensures outcome.Failed? ==> auth.error == Some(UseAuthentication.LoginFailed)
                                  && auth.accessToken == old(auth.accessToken)
      ensures outcome.Ok? ==> auth.error == old(auth.error)
                              && auth.accessToken == UseAuthentication.StoredAfterLogin(old(auth.accessToken), outcome.value)
    {
      var data := auth.SettleLogin(outcome);
      if data.Some? {
        navigations := navigations + ["/"];
      }
    }

    /** The "Lost password?" link opens the recovery notice instead of
        following its route. */
    method HandleOpenAlertDialog()
      modifies this`openAlertDialog
      ensures openAlertDialog
    {
      openAlertDialog := true;
    }

    method HandleCloseAlertDialog()
      modifies this`openAlertDialog
      ensures !openAlertDialog
    {
      openAlertDialog := false;
    }
  }
}
