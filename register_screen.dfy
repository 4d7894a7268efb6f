/** The sign-up screen (src/screens/RegisterScreen.js): four validated fields, and a `loading`
    flag raised for the duration of the request. react-hook-form calls the submit handler only
    when every field passes; the request's outcome arrives as a parameter. */
module RegisterScreen {
  import opened Common
  import opened FormRules
  import opened Text

  /** The values the form collects; all four are sent to the server. */
  datatype Fields = Fields(username: string, email: string, password: string, confirmPassword: string)

  const UsernameRules: seq<Rule> := [Required, MinLength(3), MaxLength(30), Matches(WordPattern)]

  /** The confirmation must equal the password as currently typed. */
  function ConfirmRules(password: string): seq<Rule> {
    [Required, EqualTo(password)]
  }

  /** A username is accepted exactly when it has 3 to 30 characters, each an ASCII letter,
      digit or underscore (so its UTF-16 length is its character count). */
  lemma UsernameRule(v: string)
    ensures Accepts(UsernameRules, v) <==> 3 <= |v| <= 30 && All(v, IsWordChar)
  {
    var rules := UsernameRules;
    assert rules[0] == Required && rules[1] == MinLength(3);
    assert rules[2] == MaxLength(30) && rules[3] == Matches(WordPattern);
    assert Accepts(rules, v) <==>
      Holds(rules[0], v) && Holds(rules[1], v) && Holds(rules[2], v) && Holds(rules[3], v);
    Utf16LengthIsCount(v);
  }

  /** A confirmation is accepted exactly when it is non-empty and equals the password. */
  lemma ConfirmRule(password: string, v: string)
    ensures Accepts(ConfirmRules(password), v) <==> v != "" && v == password
  {
  }

  /** Every field passes its rules. */
  predicate FormValid(f: Fields) {
    Accepts(UsernameRules, f.username) && Accepts(EmailRules, f.email)
    && Accepts(PasswordRules, f.password) && Accepts(ConfirmRules(f.password), f.confirmPassword)
  }

  /** What validation admits, field by field, in the rules' own terms. */
  lemma FormValidMeans(f: Fields)
    ensures FormValid(f) <==>
      3 <= |f.username| <= 30 && All(f.username, IsWordChar)
      && MatchesEmailRegex(f.email)
      && Utf16Length(f.password) >= 6
      && f.confirmPassword == f.password
  {
    UsernameRule(f.username);
    EmailRule(f.email);
    PasswordRule(f.password);
    ConfirmRule(f.password, f.confirmPassword);
  }

  /** How the request ended: the server accepted it, or it threw with an optional message. */
  datatype AuthResult = Accepted | Refused(message: Option<string>)

  /** What the user sees after the request: a toast, and on success a move to "/". */
  datatype Effect = Effect(toast: string, success: bool, navigateTo: Option<string>)

  /** The effect of a finished request: on success the welcome toast and "/", otherwise the
      error's message or "Registration failed", and no navigation. */
  function EffectOf(r: AuthResult): (e: Effect)
    ensures e.navigateTo.Some? <==> r.Accepted?
    ensures e.navigateTo.Some? ==> e.navigateTo.value == "/"
    ensures e.success <==> r.Accepted?
    ensures r.Refused? ==> e.toast == OrElse(r.message, "Registration failed") && e.toast != ""
  {
    match r
    case Accepted => Effect("Account created successfully!", true, Some("/"))
    case Refused(m) => Effect(OrElse(m, "Registration failed"), false, None)
  }

  class RegisterForm {
    var loading: bool

    constructor ()
      ensures !loading
    {
      loading := false;
    }

    /** The submit button is disabled while a request is in flight. */
    function SubmitDisabled(): bool
      reads this
    {
      loading
    }

    /** `handleSubmit(onSubmit)`: when every field passes, the fields are sent and `loading`
        is raised; otherwise nothing is sent and nothing changes. */
    method Submit(f: Fields) returns (sent: Option<Fields>)
      modifies this
      ensures sent.Some? <==> FormValid(f)
      ensures sent.Some? ==> sent.value == f && loading
      ensures sent.None? ==> loading == old(loading)
    {
      if FormValid(f) {
        loading := true;
        sent := Some(f);
      } else {
        sent := None;
      }
    }

    /** The request settled: `finally` lowers `loading` on both outcomes. */
    method Finish(r: AuthResult) returns (e: Effect)
      modifies this
      ensures !loading
      ensures e == EffectOf(r)
    {
      e := EffectOf(r);
      loading := false;
    }
  }

  /** One whole attempt on a fresh screen: a valid form ends with the button enabled again,
      and the user lands on "/" only when the server accepted the registration. */
  method Attempt(f: Fields, r: AuthResult) returns (e: Option<Effect>, disabledAfter: bool)
    ensures e.Some? <==> FormValid(f)
    ensures !disabledAfter
    ensures e.Some? ==> (e.value.navigateTo == Some("/") <==> r.Accepted?)
  {
    var form := new RegisterForm();
    var sent := form.Submit(f);
    if sent.Some? {
      var eff := form.Finish(r);
      e := Some(eff);
    } else {
      e := None;
    }
    disabledAfter := form.SubmitDisabled();
  }
}
