/** The `usePasswordReset` hook: the `isLoading`, `error` and `isSuccess`
    flags around the forgot-password and reset-password calls. Each call is
    split at its `await` into `Begin` and a `Settle…` step. */
module UsePasswordReset {
  import opened Values

  const ForgotFailed := "Failed to send request. Please try again."
  const ResetFailed := "Password reset failed. Please try again."

  /** `(err as Error).message || fallback`. */
  function FailureText(message: Option<string>, fallback: string): (r: string)
    requires fallback != ""
    ensures r != ""
    ensures Truthy(message) ==> r == message.value
    ensures !Truthy(message) ==> r == fallback
  {
    TextOr(message, fallback)
  }

  class PasswordResetHook {
    var isLoading: bool
    var error: Option<string>
    var isSuccess: bool

    constructor()
      ensures !isLoading && error == None && !isSuccess
    {
      isLoading, error, isSuccess := false, None, false;
    }

    /** The start of both `forgot` and `reset`. */
    method Begin()
      modifies this
      ensures isLoading && error == None && !isSuccess
    {
      isLoading := true;
      error := None;
      isSuccess := false;
    }

    /** The rest of a call: success sets `isSuccess`, failure sets the error
        text and leaves `isSuccess` as `Begin` left it; loading ends either
        way. */
    method Settle(outcome: Outcome<()>, fallback: string) returns (ok: bool)
      requires fallback != ""
      modifies this
      ensures !isLoading
      ensures ok <==> outcome.Ok?
      ensures outcome.Ok? ==> error == old(error) && isSuccess
      ensures outcome.Failed? ==> error == Some(FailureText(outcome.message, fallback))
                                  && isSuccess == old(isSuccess)
    {
      if outcome.Ok? {
        isSuccess := true;
        ok := true;
      } else {
        error := Some(FailureText(outcome.message, fallback));
        ok := false;
      }
      isLoading := false;
    }

    /** `forgot(email)` once the request has settled. */
    method SettleForgot(outcome: Outcome<()>) returns (ok: bool)
      modifies this
      ensures !isLoading && (ok <==> outcome.Ok?)
      ensures outcome.Ok? ==> error == old(error) && isSuccess
      ensures outcome.Failed? ==> error == Some(FailureText(outcome.message, ForgotFailed))
                                  && isSuccess == old(isSuccess)
    {
      ok := Settle(outcome, ForgotFailed);
    }

    /** `reset(email, temporaryPassword, newPassword)` once the request has
        settled. */
    method SettleReset(outcome: Outcome<()>) returns (ok: bool)
      modifies this
      ensures !isLoading && (ok <==> outcome.Ok?)
      ensures outcome.Ok? ==> error == old(error) && isSuccess
      ensures outcome.Failed? ==> error == Some(FailureText(outcome.message, ResetFailed))
                                  && isSuccess == old(isSuccess)
    {
      ok := Settle(outcome, ResetFailed);
    }
  }

  /** A whole call, `Begin` then `Settle`: a failure leaves `isSuccess`
      false and an error message that is never empty; a success leaves no
      error. */
  method Request(hook: PasswordResetHook, outcome: Outcome<()>, fallback: string) returns (ok: bool)
    requires fallback != ""
    modifies hook
    ensures !hook.isLoading && ok == hook.isSuccess && (ok <==> outcome.Ok?)
    ensures ok ==> hook.error == None
    ensures !ok ==> hook.error.Some? && hook.error.value != ""
  {
    hook.Begin();
    ok := hook.Settle(outcome, fallback);
  }
}
