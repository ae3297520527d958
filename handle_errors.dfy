/** `handleErrors(error, context)`: picks the alert text for a failed call
    from the context and the message the error carries, and logs one line
    tagged with the upper-cased context. `alert` and `console.error` are
    modelled as the two fields of the returned report. */
module HandleErrors {
  import opened Values
  import opened JsText

  /** A context string outside the seven the `switch` names; it takes the
      `default` arm. */
  type OtherName = n: string | n !in {"login", "logout", "register", "reset", "forgot", "message", "global"}
    witness ""

  datatype Context = Login | Logout | Register | Reset | Forgot | Message | Global
                   | Unknown(name: OtherName)

  /** The context string the caller passed. */
  function Name(c: Context): string {
    match c
    case Login => "login"
    case Logout => "logout"
    case Register => "register"
    case Reset => "reset"
    case Forgot => "forgot"
    case Message => "message"
    case Global => "global"
    case Unknown(n) => n
  }

  /** What the caught value carries: `error.response.data.message` and
      `error.message`, each possibly missing. */
  datatype Thrown = Thrown(responseMessage: Option<string>, message: Option<string>)

  /** `error?.response?.data?.message || error?.message`. */
  function Extract(e: Thrown): (m: Option<string>)
    ensures Truthy(e.responseMessage) ==> m == e.responseMessage
    ensures !Truthy(e.responseMessage) ==> m == e.message
  {
    OrElse(e.responseMessage, e.message)
  }

  /** The text shown when the message is missing or empty. */
  function Fallback(c: Context): (r: string)
    ensures r != ""
  {
    match c
    case Login => "Login failed."
    case Register => "Registration failed."
    case Reset => "Password reset failed."
    case Forgot => "Password reset email could not be sent."
    case Message => "Failed to send message."
    case Logout => "Logout failed."
    case _ => "Something went wrong."
  }

  /** The server messages a context recognises, with the text shown in
      their place. */
  function KnownMessages(c: Context): map<string, string> {
    match c
    case Login => map["Invalid credentials" := "Invalid email or password."]
    case Register => map["Email is already registered" := "An account with this email already exists."]
    case Reset => map["Temporary password expired" := "Your temporary password has expired.",
                      "Temporary password is invalid" := "The temporary password is incorrect.",
                      "Reset not allowed" := "Reset not allowed. Please check your email or request again."]
    case Forgot => map["No user found for that email" := "No user found with that email."]
    case _ => map[]
  }

  /** `r` is the alert the table of context `c` calls for: a recognised
      message is replaced by its text, any other non-empty message is
      shown as it is, and a missing or empty one gives the fallback. */
  predicate FollowsTable(c: Context, message: Option<string>, r: string) {
    && (Truthy(message) && message.value in KnownMessages(c) ==> r == KnownMessages(c)[message.value])
    && (Truthy(message) && message.value !in KnownMessages(c) ==> r == message.value)
    && (!Truthy(message) ==> r == Fallback(c))
  }

  // The `case` arms of the `switch` that recognise messages.

  function LoginAlert(message: Option<string>): (r: string)
    ensures r != "" && FollowsTable(Login, message, r)
  {
    if message == Some("Invalid credentials") then "Invalid email or password."
    else TextOr(message, "Login failed.")
  }

  function RegisterAlert(message: Option<string>): (r: string)
    ensures r != "" && FollowsTable(Register, message, r)
  {
    if message == Some("Email is already registered") then "An account with this email already exists."
    else TextOr(message, "Registration failed.")
  }

  function ResetAlert(message: Option<string>): (r: string)
    ensures r != "" && FollowsTable(Reset, message, r)
  {
    // The three messages the reset context recognises, and no others.
    var known := KnownMessages(Reset);
    assert known.Keys == {"Temporary password expired", "Temporary password is invalid", "Reset not allowed"};
    if message == Some("Temporary password expired") then "Your temporary password has expired."
    else if message == Some("Temporary password is invalid") then "The temporary password is incorrect."
    else if message == Some("Reset not allowed") then "Reset not allowed. Please check your email or request again."
    else TextOr(message, "Password reset failed.")
  }

  function ForgotAlert(message: Option<string>): (r: string)
    ensures r != "" && FollowsTable(Forgot, message, r)
  {
    if message == Some("No user found for that email") then "No user found with that email."
    else TextOr(message, "Password reset email could not be sent.")
  }

  /** The `switch` of `handleErrors`: a recognised message is replaced by
      its text, any other non-empty message is shown as it is, and a
      missing or empty one gives the context's fallback. */
  function AlertText(c: Context, message: Option<string>): (r: string)
    ensures r != ""
    ensures Truthy(message) && message.value in KnownMessages(c) ==> r == KnownMessages(c)[message.value]
    ensures Truthy(message) && message.value !in KnownMessages(c) ==> r == message.value
    ensures !Truthy(message) ==> r == Fallback(c)
  {
    match c
    case Login => LoginAlert(message)
    case Register => RegisterAlert(message)
    case Reset => ResetAlert(message)
    case Forgot => ForgotAlert(message)
    case Message => TextOr(message, "Failed to send message.")
    case Logout => TextOr(message, "Logout failed.")
    case _ => TextOr(message, "Something went wrong.")
  }

  /** One alert and one log line. */
  datatype Report = Report(alert: string, logTag: string, logged: Option<string>)

  /** `[${context.toUpperCase()} ERROR]:`. */
  function LogTag(c: Context): (r: string)
    ensures |r| == |Name(c)| + 9
    ensures r[..1] == "[" && r[|r| - 8..] == " ERROR]:"
    ensures r[1..|r| - 8] == ToUpperAscii(Name(c))
    ensures forall i | 1 <= i < |r| - 8 :: !('a' <= r[i] <= 'z')
  {
    "[" + ToUpperAscii(Name(c)) + " ERROR]:"
  }

  function HandleErrors(e: Thrown, c: Context): (r: Report)
    ensures r.alert == AlertText(c, Extract(e)) && r.alert != ""
    ensures r.logTag == LogTag(c) && r.logged == Extract(e)
  {
    var message := Extract(e);
    Report(AlertText(c, message), LogTag(c), message)
  }

  /** The server's message wins over the error's own whenever it is
      non-empty, in every context. */
  lemma ServerMessageFirst(server: string, own: Option<string>, c: Context)
    requires server != ""
    ensures HandleErrors(Thrown(Some(server), own), c).alert == AlertText(c, Some(server))
    ensures HandleErrors(Thrown(Some(server), own), c).logged == Some(server)
  {
  }

  /** Only the login, register, reset and forgot contexts translate
      messages: `message`, `logout`, `global` and unknown contexts show the
      message unchanged or their fallback. */
  lemma PassThroughContexts(c: Context, message: Option<string>)
    requires !(c.Login? || c.Register? || c.Reset? || c.Forgot?)
    ensures AlertText(c, message) == TextOr(message, Fallback(c))
  {
  }

  /** Every context name the type allows is tagged with its upper-case
      spelling; for example `reset` is logged as `[RESET ERROR]:`. */
  lemma ResetTag()
    ensures LogTag(Reset) == "[RESET ERROR]:"
  {
    assert ToUpperAscii("reset") == "RESET";
  }
}
