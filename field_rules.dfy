/** The per-field rules that every authentication form applies in its
    `validate`. A form's error record is a JavaScript object whose keys are
    the fields in error; it is modelled as a map from field to message, so
    that `Object.keys(newErrors).length === 0` is "the map is empty". */
module FieldRules {
  import opened Values
  import opened JsText
  import opened EmailPatterns

  datatype Field = Email | FullName | Username | TempPassword | Password | ConfirmPassword

  const MinPasswordLength: nat := 6

  const EmailRequired := "Email is required"
  const InvalidEmailFormat := "Invalid email format"
  const EmailInvalid := "Email is invalid"
  const UsernameRequired := "Username is required"
  const PasswordRequired := "Password is required"
  const PasswordTooShort := "Password must be at least 6 characters"
  const ConfirmRequired := "Please re-enter your password"
  const PasswordsDiffer := "Passwords do not match"

  /** `if (e) newErrors.f = e`: the error object gains the key `f` when the
      rule gave a message, and is left as it is otherwise. */
  function Put(m: map<Field, string>, f: Field, e: Option<string>): (r: map<Field, string>)
    ensures e.Some? ==> r == m[f := e.value]
    ensures e.None? ==> r == m
  {
    if e.Some? then m[f := e.value] else m
  }

  /** `if (!value.trim()) newErrors.f = message`. */
  function BlankError(value: string, message: string): (r: Option<string>)
    ensures r.Some? <==> IsBlank(value)
    ensures r.Some? ==> r.value == message
  {
    if Trim(value) == [] then Some(message) else None
  }

  /** `if (!value) newErrors.f = message`: the value is not trimmed. */
  function EmptyError(value: string, message: string): (r: Option<string>)
    ensures r.Some? <==> value == ""
    ensures r.Some? ==> r.value == message
  {
    if value == "" then Some(message) else None
  }

  /** The sign-up e-mail rule: required after trimming, then the anchored
      pattern on the untrimmed value. */
  function StrictEmailError(email: string): (r: Option<string>)
    ensures r == Some(EmailRequired) <==> IsBlank(email)
    ensures r == Some(InvalidEmailFormat) <==> !IsBlank(email) && !WellFormedAddress(email)
    ensures r == None <==> !IsBlank(email) && WellFormedAddress(email)
  {
    StrictEmailIff(email);
    if Trim(email) == [] then Some(EmailRequired)
    else if !MatchesStrictEmail(email) then Some(InvalidEmailFormat)
    else None
  }

  /** The reset e-mail rule: required without trimming, then the
      unanchored pattern. */
  function LooseEmailError(email: string): (r: Option<string>)
    ensures r == Some(EmailRequired) <==> email == ""
    ensures r == Some(EmailInvalid) <==> email != "" && !HasLooseAddress(email)
    ensures r == None <==> HasLooseAddress(email)
  {
    LooseEmailIff(email);
    if email == "" then Some(EmailRequired)
    else if !ContainsLooseEmail(email) then Some(EmailInvalid)
    else None
  }

  /** A password (new or temporary): required, then at least six
      characters; it is never trimmed. */
  function PasswordError(password: string): (r: Option<string>)
    ensures r == Some(PasswordRequired) <==> password == ""
    ensures r == Some(PasswordTooShort) <==> 0 < |password| < MinPasswordLength
    ensures r == None <==> |password| >= MinPasswordLength
  {
    if password == "" then Some(PasswordRequired)
    else if |password| < MinPasswordLength then Some(PasswordTooShort)
    else None
  }

  /** The confirmation: required, then equal to the password. */
  function ConfirmError(confirm: string, password: string): (r: Option<string>)
    ensures r == Some(ConfirmRequired) <==> confirm == ""
    ensures r == Some(PasswordsDiffer) <==> confirm != "" && confirm != password
    ensures r == None <==> confirm != "" && confirm == password
  {
    if confirm == "" then Some(ConfirmRequired)
    else if confirm != password then Some(PasswordsDiffer)
    else None
  }

  // The `if` chains `validate` runs, one field at a time, on the error
  // object it is filling.

  method AddBlankError(m: map<Field, string>, f: Field, value: string, message: string)
    returns (r: map<Field, string>)
    ensures r == Put(m, f, BlankError(value, message))
  {
    r := m;
    if Trim(value) == [] {
      r := r[f := message];
    }
  }

  method AddEmptyError(m: map<Field, string>, f: Field, value: string, message: string)
    returns (r: map<Field, string>)
    ensures r == Put(m, f, EmptyError(value, message))
  {
    r := m;
    if value == "" {
      r := r[f := message];
    }
  }

  method AddStrictEmailError(m: map<Field, string>, email: string) returns (r: map<Field, string>)
    ensures r == Put(m, Email, StrictEmailError(email))
  {
    r := m;
    if Trim(email) == [] {
      r := r[Email := EmailRequired];
    } else if !MatchesStrictEmail(email) {
      r := r[Email := InvalidEmailFormat];
    }
  }

  method AddLooseEmailError(m: map<Field, string>, email: string) returns (r: map<Field, string>)
    ensures r == Put(m, Email, LooseEmailError(email))
  {
    r := m;
    if email == "" {
      r := r[Email := EmailRequired];
    } else if !ContainsLooseEmail(email) {
      r := r[Email := EmailInvalid];
    }
  }

  method AddPasswordError(m: map<Field, string>, f: Field, password: string) returns (r: map<Field, string>)
    ensures r == Put(m, f, PasswordError(password))
  {
    r := m;
    if password == "" {
      r := r[f := PasswordRequired];
    } else if |password| < MinPasswordLength {
      r := r[f := PasswordTooShort];
    }
  }

  method AddConfirmError(m: map<Field, string>, confirm: string, password: string) returns (r: map<Field, string>)
    ensures r == Put(m, ConfirmPassword, ConfirmError(confirm, password))
  {
    r := m;
    if confirm == "" {
      r := r[ConfirmPassword := ConfirmRequired];
    } else if confirm != password {
      r := r[ConfirmPassword := PasswordsDiffer];
    }
  }

  /** `Object.keys(errors).length === 0`: the record has no entry. */
  function NoErrors(m: map<Field, string>): (r: bool)
    ensures r <==> m == map[]
  {
    assert m != map[] ==> |m| != 0 by {
      if m != map[] {
        var k :| k in m;
        assert k in m.Keys;
      }
    }
    |m| == 0
  }

  /** A whitespace-only e-mail is never accepted by the reset rule, although
      it passes the untrimmed "required" check. */
  lemma BlankEmailIsInvalidForReset(email: string)
    requires email != "" && IsBlank(email)
    ensures LooseEmailError(email) == Some(EmailInvalid)
  {
  }

  /** Whatever the sign-up rule accepts, the reset rule accepts too. */
  lemma StrictAcceptedIsLooseAccepted(email: string)
    ensures StrictEmailError(email) == None ==> LooseEmailError(email) == None
  {
    StrictEmailIff(email);
    StrictImpliesLoose(email);
    LooseEmailIff(email);
  }
}
