/** The sign-up form's field validators. Each returns the error message it
    shows, or `None` when the field is valid. */
module SignUp {
  import opened Wrappers
  import opened JsText

  const FullNameRequired := "Full name is required"
  const FullNameTooShort := "Full name must be at least 2 characters"
  const EmailRequired := "Email is required"
  const EmailInvalid := "Please enter a valid email address"
  const PasswordRequired := "Password is required"
  const PasswordTooShort := "Password must be at least 8 characters"
  const PasswordsDiffer := "Passwords do not match"
  const TermsNotAccepted := "You must accept the terms and conditions"

  /** The values of the form. */
  datatype SignUpForm = SignUpForm(
    fullName: string, email: string, password: string,
    confirmPassword: string, termsAccepted: bool)

  /** The form as first shown: every text empty, terms not accepted. */
  const DefaultValues := SignUpForm("", "", "", "", false)

  /** Full name: required, then at least 2 characters. */
  function ValidateFullName(value: string): (error: Option<string>)
    ensures value == "" ==> error == Some(FullNameRequired)
    ensures |value| == 1 ==> error == Some(FullNameTooShort)
    ensures error.None? <==> |value| >= 2
  {
    if value == "" then Some(FullNameRequired)
    else if |value| < 2 then Some(FullNameTooShort)
    else None
  }

  /** A character of the class `[^\s@]`. */
  predicate IsEmailChar(c: char) {
    !IsJsWhitespace(c) && c != '@'
  }

  /** A non-empty run of `[^\s@]`, i.e. a match of `[^\s@]+`. */
  predicate IsEmailRun(s: string) {
    |s| >= 1 && forall i :: 0 <= i < |s| ==> IsEmailChar(s[i])
  }

  /** `s` splits as `[^\s@]+` `@` `[^\s@]+` `\.` `[^\s@]+`, with the `@` at
      index `at` and the `.` at index `dot`. */
  ghost predicate EmailSplit(s: string, at: int, dot: int) {
    && 0 <= at < dot < |s|
    && s[at] == '@' && s[dot] == '.'
    && IsEmailRun(s[..at]) && IsEmailRun(s[at + 1..dot]) && IsEmailRun(s[dot + 1..])
  }

  /** `s` matches the whole of `/^[^\s@]+@[^\s@]+\.[^\s@]+$/`. */
  ghost predicate MatchesEmailPattern(s: string) {
    exists at, dot :: EmailSplit(s, at, dot)
  }

  /** The index of the first `c` in `s`, if any. */
  function IndexOf(s: string, c: char): (r: Option<nat>)
    ensures r.None? <==> c !in s
    ensures r.Some? ==> r.value < |s| && s[r.value] == c && c !in s[..r.value]
  {
    if s == [] then None
    else if s[0] == c then Some(0)
    else match IndexOf(s[1..], c) {
      case None => None
      case Some(i) =>
        assert s[..i + 1] == [s[0]] + s[1..][..i];
        Some(i + 1)
    }
  }

  /** The email shape test: exactly one '@', no white space, a non-empty part
      before the '@', and a '.' after it that is neither the first nor the
      last character of the part after the '@'. */
  function LooksLikeEmail(s: string): bool {
    match IndexOf(s, '@')
    case None => false
    case Some(at) =>
      var domain := s[at + 1..];
      && IsEmailRun(s[..at])
      && |domain| >= 3
      && (forall i :: 0 <= i < |domain| ==> IsEmailChar(domain[i]))
      && '.' in domain[1..|domain| - 1]
  }

  /** The shape test accepts exactly the strings the pattern matches. */
  lemma LooksLikeEmailMatchesPattern(s: string)
    ensures LooksLikeEmail(s) <==> MatchesEmailPattern(s)
  {
    if LooksLikeEmail(s) {
      ShapeGivesSplit(s);
    }
    if MatchesEmailPattern(s) {
      var at, dot :| EmailSplit(s, at, dot);
      SplitPassesShape(s, at, dot);
    }
  }

  /** A string passing the shape test splits as the pattern demands. */
  lemma ShapeGivesSplit(s: string)
    requires LooksLikeEmail(s)
    ensures MatchesEmailPattern(s)
  {
    var at := IndexOf(s, '@').value;
    var domain := s[at + 1..];
    var k :| 0 <= k < |domain[1..|domain| - 1]| && domain[1..|domain| - 1][k] == '.';
    var dot := at + 2 + k;
    assert s[dot] == '.';
    assert s[at + 1..dot] == domain[..k + 1];
    assert s[dot + 1..] == domain[k + 2..];
    assert EmailSplit(s, at, dot);
  }

  /** A string that splits as the pattern demands passes the shape test. */
  lemma SplitPassesShape(s: string, at: int, dot: int)
    requires EmailSplit(s, at, dot)
    ensures LooksLikeEmail(s)
  {
    assert forall i :: 0 <= i < at ==> s[..at][i] == s[i];
    FirstAtIs(s, at);
    var domain := s[at + 1..];
    forall i | 0 <= i < |domain|
      ensures IsEmailChar(domain[i])
    {
      if at + 1 + i < dot {
        assert domain[i] == s[at + 1..dot][i];
      } else if at + 1 + i > dot {
        assert domain[i] == s[dot + 1..][at + i - dot];
      }
    }
    assert domain[1..|domain| - 1][dot - at - 2] == '.';
  }

  /** When `s` has no '@' before index `at` and one at `at`, that is the
      first '@'. */
  lemma FirstAtIs(s: string, at: nat)
    requires at < |s| && s[at] == '@' && forall i :: 0 <= i < at ==> s[i] != '@'
    ensures IndexOf(s, '@') == Some(at)
  {
    var r := IndexOf(s, '@').value;
    assert forall j :: 0 <= j < r ==> s[..r][j] == s[j];
  }

  /** Email: required, then it must match the email pattern. */
  function ValidateEmail(value: string): (error: Option<string>)
    ensures value == "" ==> error == Some(EmailRequired)
    ensures value != "" && !MatchesEmailPattern(value) ==> error == Some(EmailInvalid)
    ensures error.None? <==> MatchesEmailPattern(value)
  {
    LooksLikeEmailMatchesPattern(value);
    if value == "" then Some(EmailRequired)
    else if !LooksLikeEmail(value) then Some(EmailInvalid)
    else None
  }

  /** Password: required, then at least 8 characters. */
  function ValidatePassword(value: string): (error: Option<string>)
    ensures value == "" ==> error == Some(PasswordRequired)
    ensures 0 < |value| < 8 ==> error == Some(PasswordTooShort)
    ensures error.None? <==> |value| >= 8
  {
    if value == "" then Some(PasswordRequired)
    else if |value| < 8 then Some(PasswordTooShort)
    else None
  }

  /** Confirm password: must equal the current password (two empty strings
      are equal). */
  function ValidateConfirmPassword(value: string, password: string): (error: Option<string>)
    ensures error.Some? ==> error == Some(PasswordsDiffer)
    ensures error.None? <==> value == password
  {
    if value != password then Some(PasswordsDiffer) else None
  }

  /** Terms: must be accepted. */
  function ValidateTermsAccepted(value: bool): (error: Option<string>)
    ensures error.Some? ==> error == Some(TermsNotAccepted)
    ensures error.None? <==> value
  {
    if !value then Some(TermsNotAccepted) else None
  }

  /** The errors of all five fields, in the form's order. */
  datatype FormErrors = FormErrors(
    fullName: Option<string>, email: Option<string>, password: Option<string>,
    confirmPassword: Option<string>, termsAccepted: Option<string>)

  function Validate(f: SignUpForm): FormErrors {
    FormErrors(
      ValidateFullName(f.fullName),
      ValidateEmail(f.email),
      ValidatePassword(f.password),
      ValidateConfirmPassword(f.confirmPassword, f.password),
      ValidateTermsAccepted(f.termsAccepted))
  }

  /** No field reports an error. */
  predicate NoErrors(e: FormErrors) {
    e.fullName.None? && e.email.None? && e.password.None?
    && e.confirmPassword.None? && e.termsAccepted.None?
  }

  /** The form as first shown reports the four "required" errors and no
      password mismatch. */
  lemma DefaultValuesErrors()
    ensures Validate(DefaultValues) == FormErrors(
      Some(FullNameRequired), Some(EmailRequired), Some(PasswordRequired),
      None, Some(TermsNotAccepted))
  {
  }

  /** A form passes every validator exactly when its name has at least 2
      characters, its email matches the pattern, its password has at least
      8 characters and is repeated exactly, and the terms are accepted. */
  lemma AcceptedForms(f: SignUpForm)
    ensures NoErrors(Validate(f)) <==>
      && |f.fullName| >= 2
      && MatchesEmailPattern(f.email)
      && |f.password| >= 8
      && f.confirmPassword == f.password
      && f.termsAccepted
  {
  }
}
