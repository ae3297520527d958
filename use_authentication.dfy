/** The `useAuth` hook: the `isLoading` and `error` flags around the login,
    registration and logout calls, and the access token the hook keeps in
    local storage. Each call is split at its `await`: `Begin…` is what runs
    before the request, `Settle…` what runs once its outcome is known. */
module UseAuthentication {
  import opened Values

  datatype LoginResponse = LoginResponse(accessToken: Option<string>, refreshToken: Option<string>)
  datatype User = User(id: int, email: string, fullName: string)
  datatype RegisterResponse = RegisterResponse(message: string, user: User)
  datatype LogoutResponse = LogoutResponse(message: string)

  const LoginFailed := "Login failed. Please try again."
  const RegistrationFailed := "Registration failed. Please try again."
  const LogoutFailed := "Logout failed. Please try again."

  /** The token write of `loginUser`: `data?.accessToken` is stored only when
      it is a non-empty string; otherwise the stored token is kept. */
  function StoredAfterLogin(stored: Option<string>, data: LoginResponse): (r: Option<string>)
    ensures Truthy(data.accessToken) ==> r == data.accessToken
    ensures !Truthy(data.accessToken) ==> r == stored
  {
    if Truthy(data.accessToken) then data.accessToken else stored
  }

  class AuthHook {
    var isLoading: bool
    var error: Option<string>
    /** `localStorage.getItem('accessToken')`. */
    var accessToken: Option<string>

    constructor(stored: Option<string>)
      ensures !isLoading && error == None && accessToken == stored
    {
      isLoading, error, accessToken := false, None, stored;
    }

    /** The start of `loginUser` and `registerUser`. */
    method Begin()
      modifies this
      ensures isLoading && error == None && accessToken == old(accessToken)
    {
      isLoading := true;
      error := None;
    }

    /** The rest of `loginUser`: the response is returned, and its token
        stored when it has one; a failure sets the fixed error and returns
        null. Loading ends either way. */
    method SettleLogin(outcome: Outcome<LoginResponse>) returns (data: Option<LoginResponse>)
      modifies this
      ensures !isLoading
      ensures outcome.Ok? ==> data == Some(outcome.value) && error == old(error)
                              && accessToken == StoredAfterLogin(old(accessToken), outcome.value)
      ensures outcome.Failed? ==> data == None && error == Some(LoginFailed)
                                  && accessToken == old(accessToken)
    {
      if outcome.Ok? {
        accessToken := StoredAfterLogin(accessToken, outcome.value);
        data := Some(outcome.value);
      } else {
        error := Some(LoginFailed);
        data := None;
      }
      isLoading := false;
    }

    /** The rest of `registerUser`: the response is returned unchanged; a
        failure sets the fixed error and returns null. */
    method SettleRegister(outcome: Outcome<RegisterResponse>) returns (data: Option<RegisterResponse>)
      modifies this
      ensures !isLoading && accessToken == old(accessToken)
      ensures outcome.Ok? ==> data == Some(outcome.value) && error == old(error)
      ensures outcome.Failed? ==> data == None && error == Some(RegistrationFailed)
    {
      if outcome.Ok? {
        data := Some(outcome.value);
      } else {
        error := Some(RegistrationFailed);
        data := None;
      }
      isLoading := false;
    }

    /** The start of `logoutUser`: the stored token is removed before the
        request is made, so it is gone whatever the outcome. */
    method BeginLogout()
      modifies this
      ensures isLoading && error == None && accessToken == None
    {
      accessToken := None;
      isLoading := true;
      error := None;
    }

    /** The rest of `logoutUser`. */
    method SettleLogout(outcome: Outcome<LogoutResponse>) returns (data: Option<LogoutResponse>)
      modifies this
      ensures !isLoading && accessToken == old(accessToken)
      ensures outcome.Ok? ==> data == Some(outcome.value) && error == old(error)
      ensures outcome.Failed? ==> data == None && error == Some(LogoutFailed)
    {
      if outcome.Ok? {
        data := Some(outcome.value);
      } else {
        error := Some(LogoutFailed);
        data := None;
      }
      isLoading := false;
    }
  }

  /** A whole `logoutUser` call leaves no token stored, whatever the
      server answers. */
  method LogoutClearsToken(hook: AuthHook, outcome: Outcome<LogoutResponse>)
    returns (data: Option<LogoutResponse>)
    modifies hook
    ensures hook.accessToken == None && !hook.isLoading
    ensures data.Some? <==> outcome.Ok?
  {
    hook.BeginLogout();
    data := hook.SettleLogout(outcome);
  }
}
