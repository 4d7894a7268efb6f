/** The validation rules the auth screens register with react-hook-form, and the two patterns
    they use. A field is accepted when every rule holds; as in react-hook-form, the length and
    pattern rules are not checked on an empty value (`required` decides that case), and a
    length is JavaScript's, counted in UTF-16 code units. Which message is shown first is
    library behaviour and is not modelled. */
module FormRules {
  import opened Common
  import opened Text

  datatype Pattern =
    | WordPattern   // /^[a-zA-Z0-9_]+$/
    | EmailPattern  // /^[A-Z0-9._%+-]+@[A-Z0-9.-]+\.[A-Z]{2,}$/i

  datatype Rule =
    | Required
    | MinLength(min: nat)
    | MaxLength(max: nat)
    | Matches(pattern: Pattern)
    | EqualTo(other: string)   // `validate: value => value === other`

  predicate IsLetter(c: char) { 'a' <= c <= 'z' || 'A' <= c <= 'Z' }
  predicate IsDigit(c: char) { '0' <= c <= '9' }
  predicate IsWordChar(c: char) { IsLetter(c) || IsDigit(c) || c == '_' }

  /** `[A-Z0-9._%+-]` under the `i` flag. */
  predicate IsLocalChar(c: char) {
    IsLetter(c) || IsDigit(c) || c == '.' || c == '_' || c == '%' || c == '+' || c == '-'
  }

  /** `[A-Z0-9.-]` under the `i` flag. */
  predicate IsDomainChar(c: char) { IsLetter(c) || IsDigit(c) || c == '.' || c == '-' }

  predicate All(s: string, p: char -> bool) {
    forall i :: 0 <= i < |s| ==> p(s[i])
  }

  /** The email pattern read as a split of `s`: a non-empty local part before the `@` at `at`,
      a non-empty domain prefix up to the `.` at `dot`, and at least two letters after it. */
  ghost predicate EmailSplit(s: string, at: int, dot: int) {
    0 < at && at + 1 < dot && dot + 3 <= |s|
    && s[at] == '@' && s[dot] == '.'
    && All(s[..at], IsLocalChar)
    && All(s[at + 1..dot], IsDomainChar)
    && All(s[dot + 1..], IsLetter)
  }

  ghost predicate MatchesEmailRegex(s: string) {
    exists at, dot :: EmailSplit(s, at, dot)
  }

  /** The matcher: the `@` must be the first one (no class before it admits `@`) and the `.`
      before the final letters must be the last one (the letters admit no `.`). */
  function IsEmail(s: string): (b: bool)
    ensures b <==> MatchesEmailRegex(s)
  {
    MatchUsesFirstAtLastDot(s);
    match (IndexOf(s, '@'), LastIndexOf(s, '.'))
    case (Some(at), Some(dot)) =>
      var ok := 0 < at && at + 1 < dot && dot + 3 <= |s|
        && All(s[..at], IsLocalChar) && All(s[at + 1..dot], IsDomainChar) && All(s[dot + 1..], IsLetter);
      assert ok ==> EmailSplit(s, at, dot);
      ok
    case (_, _) => false
  }

  /** Whenever the pattern matches, it matches with the first `@` and the last `.`. */
  lemma MatchUsesFirstAtLastDot(s: string)
    ensures MatchesEmailRegex(s) ==>
      IndexOf(s, '@').Some? && LastIndexOf(s, '.').Some? &&
      EmailSplit(s, IndexOf(s, '@').value, LastIndexOf(s, '.').value)
  {
    if MatchesEmailRegex(s) {
      var a, d :| EmailSplit(s, a, d);
      assert s[a] == '@' && s[d] == '.';
      SplitIsFirstAtLastDot(s, a, d, IndexOf(s, '@').value, LastIndexOf(s, '.').value);
    }
  }

  /** Any split the pattern admits puts its `@` at the first `@` and its `.` at the last `.`. */
  lemma SplitIsFirstAtLastDot(s: string, a: int, d: int, at: nat, dot: nat)
    requires EmailSplit(s, a, d)
    requires at < |s| && s[at] == '@' && '@' !in s[..at]
    requires dot < |s| && s[dot] == '.' && '.' !in s[dot + 1..]
    ensures a == at && d == dot
  {
    assert forall i :: 0 <= i < a ==> s[i] != '@' by {
      forall i | 0 <= i < a ensures s[i] != '@' { assert s[..a][i] == s[i]; }
    }
    assert forall i :: 0 <= i < at ==> s[i] != '@' by {
      forall i | 0 <= i < at ensures s[i] != '@' { assert s[..at][i] == s[i]; }
    }
    assert forall i :: d < i < |s| ==> s[i] != '.' by {
      forall i | d < i < |s| ensures s[i] != '.' { assert s[d + 1..][i - d - 1] == s[i]; }
    }
    assert forall i :: dot < i < |s| ==> s[i] != '.' by {
      forall i | dot < i < |s| ensures s[i] != '.' { assert s[dot + 1..][i - dot - 1] == s[i]; }
    }
  }

  function MatchesPattern(p: Pattern, s: string): bool {
    match p
    case WordPattern => |s| >= 1 && All(s, IsWordChar)
    case EmailPattern => IsEmail(s)
  }

  /** One rule on one value. */
  function Holds(r: Rule, v: string): bool {
    match r
    case Required => v != ""
    case MinLength(n) => v == "" || Utf16Length(v) >= n
    case MaxLength(n) => v == "" || Utf16Length(v) <= n
    case Matches(p) => v == "" || MatchesPattern(p, v)
    case EqualTo(other) => v == other
  }

  /** The field passes validation. */
  function Accepts(rules: seq<Rule>, v: string): (ok: bool)
    ensures ok <==> forall k :: 0 <= k < |rules| ==> Holds(rules[k], v)
  {
    if rules == [] then true else Holds(rules[0], v) && Accepts(rules[1..], v)
  }

  /** The email rules both auth screens register. */
  const EmailRules: seq<Rule> := [Required, Matches(EmailPattern)]

  /** The password rules both auth screens register. */
  const PasswordRules: seq<Rule> := [Required, MinLength(6)]

  /** An email is accepted exactly when it matches the pattern (which rejects "" anyway). */
  lemma EmailRule(v: string)
    ensures Accepts(EmailRules, v) <==> MatchesEmailRegex(v)
  {
  }

  /** A password is accepted exactly when it is at least six UTF-16 code units long. */
  lemma PasswordRule(v: string)
    ensures Accepts(PasswordRules, v) <==> Utf16Length(v) >= 6
  {
  }

  /** An address the pattern takes has exactly one `@`, the one that ends the local part,
      and ends in at least two letters after its last `.`. */
  lemma {:induction false} SingleAt(s: string)
    requires MatchesEmailRegex(s)
    ensures forall i :: 0 <= i < |s| && s[i] == '@' ==> i == IndexOf(s, '@').value
    ensures LastIndexOf(s, '.').Some? && LastIndexOf(s, '.').value + 3 <= |s|
  {
    MatchUsesFirstAtLastDot(s);
    var at, dot := IndexOf(s, '@').value, LastIndexOf(s, '.').value;
    forall i | at < i < |s| ensures s[i] != '@' {
      if i < dot {
        assert IsDomainChar(s[at + 1..dot][i - at - 1]);
      } else if i > dot {
        assert IsLetter(s[dot + 1..][i - dot - 1]);
      }
    }
  }
}
