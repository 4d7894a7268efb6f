/** The sign-in screen (src/screens/LoginScreen.js): an email and a password validated with the
    same rules as at sign-up, and a `loading` flag raised for the duration of the request. */
module LoginScreen {
  import opened Common
  import opened FormRules
  import opened Text
  import RegisterScreen

  datatype Credentials = Credentials(email: string, password: string)

  predicate FormValid(c: Credentials) {
    Accepts(EmailRules, c.email) && Accepts(PasswordRules, c.password)
  }

  /** Credentials pass exactly when the email matches the pattern and the password has at
      least six characters; both are judged as the sign-up screen judges them. */
  lemma FormValidMeans(c: Credentials, username: string, confirm: string)
    ensures FormValid(c) <==> MatchesEmailRegex(c.email) && Utf16Length(c.password) >= 6
    ensures RegisterScreen.FormValid(RegisterScreen.Fields(username, c.email, c.password, confirm))
            ==> FormValid(c)
  {
    EmailRule(c.email);
    PasswordRule(c.password);
  }

  /** What the user sees after the request: a toast, and on success a move to "/". */
  function EffectOf(r: RegisterScreen.AuthResult): (e: RegisterScreen.Effect)
    ensures e.navigateTo.Some? <==> r.Accepted?
    ensures e.navigateTo.Some? ==> e.navigateTo.value == "/"
    ensures e.success <==> r.Accepted?
    ensures r.Refused? ==> e.toast == OrElse(r.message, "Login failed") && e.toast != ""
  {
    match r
    case Accepted => RegisterScreen.Effect("Welcome back!", true, Some("/"))
    case Refused(m) => RegisterScreen.Effect(OrElse(m, "Login failed"), false, None)
  }

  class LoginForm {
    var loading: bool

    constructor ()
      ensures !loading
    {
      loading := false;
    }

    /** The submit button is disabled while a request is in flight. */
    function SubmitDisabled(): bool
      reads this
    {
      loading
    }

    /** `handleSubmit(onSubmit)`: valid credentials are sent and `loading` is raised; invalid
        ones send nothing and change nothing. */
    method Submit(c: Credentials) returns (sent: Option<Credentials>)
      modifies this
      ensures sent.Some? <==> FormValid(c)
      ensures sent.Some? ==> sent.value == c && loading
      ensures sent.None? ==> loading == old(loading)
    {
      if FormValid(c) {
        loading := true;
        sent := Some(c);
      } else {
        sent := None;
      }
    }

    /** The request settled: `finally` lowers `loading` whatever the outcome. */
    method Finish(r: RegisterScreen.AuthResult) returns (e: RegisterScreen.Effect)
      modifies this
      ensures !loading
      ensures e == EffectOf(r)
    {
      e := EffectOf(r);
      loading := false;
    }
  }

  /** One whole attempt on a fresh screen: the button is enabled again afterwards, and the
      user lands on "/" only when the server accepted the credentials. */
  method Attempt(c: Credentials, r: RegisterScreen.AuthResult) returns (e: Option<RegisterScreen.Effect>, disabledAfter: bool)
    ensures e.Some? <==> FormValid(c)
    ensures !disabledAfter
    ensures e.Some? ==> (e.value.navigateTo == Some("/") <==> r.Accepted?)
  {
    var form := new LoginForm();
    var sent := form.Submit(c);
    if sent.Some? {
      var eff := form.Finish(r);
      e := Some(eff);
    } else {
      e := None;
    }
    disabledAfter := form.SubmitDisabled();
  }
}
