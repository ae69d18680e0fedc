/**
 * The login / signup form (src/components/AuthPages.tsx): the e-mail shape
 * check and the ordered chain of validations that decides whether the form
 * calls `onLogin`, `onSignup` or neither.
 */
module Auth {
  import opened Types
  import opened Text

  datatype Mode = LoginMode | SignupMode

  /** A character the pattern's `[^\s@]` class accepts. */
  predicate PlainChar(c: char) {
    !IsSpace(c) && c != '@'
  }

  predicate AllPlain(s: string) {
    forall i :: 0 <= i < |s| ==> PlainChar(s[i])
  }

  /**
   * `/^[^\s@]+@[^\s@]+\.[^\s@]+$/`: a non-empty plain part, '@', a non-empty
   * plain part, '.', and a non-empty plain part, where `at` and `dot` are the
   * positions of the '@' and of the chosen '.'.
   */
  ghost predicate MatchesAt(s: string, at: int, dot: int) {
    && 0 < at && at + 1 < dot && dot + 1 < |s|
    && s[at] == '@' && s[dot] == '.'
    && AllPlain(s[..at]) && AllPlain(s[at + 1..dot]) && AllPlain(s[dot + 1..])
  }

  ghost predicate MatchesEmailPattern(s: string) {
    exists at, dot :: MatchesAt(s, at, dot)
  }

  /** The domain holds a '.' that is neither its first nor its last character. */
  predicate HasInnerDot(d: string) {
    exists j :: 0 < j < |d| - 1 && d[j] == '.'
  }

  /** `validateEmail`, evaluated by splitting at the first '@'; `ValidateEmailMatchesPattern` gives its meaning. */
  predicate ValidateEmail(s: string)
    ensures ValidateEmail(s) ==> |s| >= 5 && s[0] != '@'
  {
    var at := |BeforeAt(s)|;
    0 < at < |s| && AllPlain(s[..at]) && AllPlain(s[at + 1..]) && HasInnerDot(s[at + 1..])
  }

  /** The split check accepts exactly the strings the regular expression matches. */
  lemma ValidateEmailMatchesPattern(s: string)
    ensures ValidateEmail(s) <==> MatchesEmailPattern(s)
  {
    var at := |BeforeAt(s)|;
    if MatchesEmailPattern(s) {
      var a, dot :| MatchesAt(s, a, dot);
      MatchSplitsAtFirstAt(s, a, dot);
    }
    if 0 < at < |s| && AllPlain(s[..at]) && AllPlain(s[at + 1..]) && HasInnerDot(s[at + 1..]) {
      SplitMatches(s, at);
    }
  }

  /** A match's '@' is the first one, and the text after it is plain with an inner dot. */
  lemma MatchSplitsAtFirstAt(s: string, a: int, dot: int)
    requires MatchesAt(s, a, dot)
    ensures a == |BeforeAt(s)|
    ensures AllPlain(s[a + 1..]) && HasInnerDot(s[a + 1..])
  {
    var at := |BeforeAt(s)|;
    assert a == at;
    var d := s[a + 1..];
    forall i | 0 <= i < |d| ensures PlainChar(d[i]) {
      if i < dot - (a + 1) {
        assert d[i] == s[a + 1..dot][i];
      } else if i > dot - (a + 1) {
        assert d[i] == s[dot + 1..][i - (dot - a)];
      }
    }
    assert d[dot - (a + 1)] == '.';
  }

  /** A plain domain with an inner dot after the first '@' gives a match. */
  lemma SplitMatches(s: string, at: int)
    requires 0 < at < |s| && s[at] == '@'
    requires AllPlain(s[..at]) && AllPlain(s[at + 1..]) && HasInnerDot(s[at + 1..])
    ensures MatchesEmailPattern(s)
  {
    var d := s[at + 1..];
    var j :| 0 < j < |d| - 1 && d[j] == '.';
    var dot := at + 1 + j;
    assert s[at + 1..dot] == d[..j];
    assert s[dot + 1..] == d[j + 1..];
    assert MatchesAt(s, at, dot);
  }

  /** The local part before '@' must be non-empty: "@example.com" is refused. */
  lemma EmptyLocalPartRefused(domain: string)
    ensures !ValidateEmail("@" + domain)
  {
    assert BeforeAt("@" + domain) == [];
  }

  /** A well-formed address: "a@b.co". */
  lemma SimpleAddressAccepted()
    ensures ValidateEmail("a@b.co")
  {
    assert MatchesAt("a@b.co", 1, 3);
    ValidateEmailMatchesPattern("a@b.co");
  }

  datatype Rejection = MissingFields | InvalidEmail | ShortPassword | MissingName | PasswordMismatch

  /** What one submit does: show one error, or call exactly one of the two callbacks. */
  datatype Outcome =
    | Rejected(reason: Rejection)
    | CallLogin(email: string, password: string)
    | CallSignup(name: string, email: string, password: string, role: Role)

  datatype FormData = FormData(name: string, email: string, password: string, confirmPassword: string, role: Role)

  const MIN_PASSWORD_LENGTH := 6

  /** `handleSubmit`: the checks run in order and the first that fails ends the submit. */
  function Decide(mode: Mode, f: FormData): (o: Outcome)
    ensures o.CallLogin? ==> mode == LoginMode && o == CallLogin(f.email, f.password)
    ensures o.CallSignup? ==> mode == SignupMode && o == CallSignup(f.name, f.email, f.password, f.role)
    ensures !o.Rejected? ==> ValidateEmail(f.email) && Utf16Length(f.password) >= MIN_PASSWORD_LENGTH
  {
    if f.email == "" || f.password == "" then Rejected(MissingFields)
    else if !ValidateEmail(f.email) then Rejected(InvalidEmail)
    else if Utf16Length(f.password) < MIN_PASSWORD_LENGTH then Rejected(ShortPassword)
    else if mode.LoginMode? then CallLogin(f.email, f.password)
    else if Trim(f.name) == "" then Rejected(MissingName)
    else if f.password != f.confirmPassword then Rejected(PasswordMismatch)
    else CallSignup(f.name, f.email, f.password, f.role)
  }

  /** An empty e-mail or password is refused before anything else is looked at. */
  lemma EmptyFieldsFirst(mode: Mode, f: FormData)
    requires f.email == "" || f.password == ""
    ensures Decide(mode, f) == Rejected(MissingFields)
  {
  }

  /** A malformed address is refused next, then a short password, in either mode. */
  lemma EmailThenPassword(mode: Mode, f: FormData)
    requires f.email != "" && f.password != ""
    ensures !ValidateEmail(f.email) ==> Decide(mode, f) == Rejected(InvalidEmail)
    ensures ValidateEmail(f.email) && Utf16Length(f.password) < MIN_PASSWORD_LENGTH ==> Decide(mode, f) == Rejected(ShortPassword)
  {
  }

  /** In login mode `onLogin` fires exactly when the three shared checks pass; name and confirmation are ignored. */
  lemma LoginIff(f: FormData)
    ensures Decide(LoginMode, f).CallLogin? <==>
      f.email != "" && f.password != "" && ValidateEmail(f.email) && Utf16Length(f.password) >= MIN_PASSWORD_LENGTH
    ensures forall n, c :: Decide(LoginMode, f.(name := n, confirmPassword := c)) == Decide(LoginMode, f)
  {
  }

  /** In signup mode the shared checks are followed by a non-blank name and a matching confirmation. */
  lemma SignupIff(f: FormData)
    ensures Decide(SignupMode, f).CallSignup? <==>
      && f.email != "" && f.password != "" && ValidateEmail(f.email) && Utf16Length(f.password) >= MIN_PASSWORD_LENGTH
      && Trim(f.name) != "" && f.password == f.confirmPassword
    ensures f.email != "" && f.password != "" && ValidateEmail(f.email) && Utf16Length(f.password) >= MIN_PASSWORD_LENGTH ==>
      && (Trim(f.name) == "" ==> Decide(SignupMode, f) == Rejected(MissingName))
      && (Trim(f.name) != "" && f.password != f.confirmPassword ==> Decide(SignupMode, f) == Rejected(PasswordMismatch))
  {
  }

  /**
   * The length check counts UTF-16 code units: three characters outside the
   * Basic Multilingual Plane make a password of length 6, which is accepted.
   */
  lemma AstralPasswordLongEnough()
    ensures Decide(LoginMode, FormData("", "a@b.co", "\U{1F600}\U{1F600}\U{1F600}", "", Customer))
         == CallLogin("a@b.co", "\U{1F600}\U{1F600}\U{1F600}")
  {
    SimpleAddressAccepted();
    var pw := "\U{1F600}\U{1F600}\U{1F600}";
    assert pw[1..][1..][1..] == [];
    assert Utf16Length(pw) == 6;
  }

  /** The form's fields, set by typing and by the role buttons. */
  class AuthForm {
    var name: string
    var email: string
    var password: string
    var confirmPassword: string
    var role: Role

    /** Every field starts empty and the role starts as customer. */
    constructor ()
      ensures name == "" && email == "" && password == "" && confirmPassword == ""
      ensures role == Customer
    {
      name, email, password, confirmPassword := "", "", "", "";
      role := Customer;
    }

    function Data(): FormData
      reads this
    {
      FormData(name, email, password, confirmPassword, role)
    }

    method SetName(value: string)
      modifies this
      ensures Data() == old(Data()).(name := value)
    {
      name := value;
    }

    method SetEmail(value: string)
      modifies this
      ensures Data() == old(Data()).(email := value)
    {
      email := value;
    }

    method SetPassword(value: string)
      modifies this
      ensures Data() == old(Data()).(password := value)
    {
      password := value;
    }

    method SetConfirmPassword(value: string)
      modifies this
      ensures Data() == old(Data()).(confirmPassword := value)
    {
      confirmPassword := value;
    }

    /** The "Customer" and "Admin" buttons of the signup form. */
    method SelectRole(r: Role)
      modifies this
      ensures Data() == old(Data()).(role := r)
    {
      role := r;
    }

    /** Submitting leaves the fields as they are and reports which callback, if any, fires. */
    method Submit(mode: Mode) returns (o: Outcome)
      ensures o == Decide(mode, Data())
      ensures o.CallSignup? ==> o.role == role
    {
      o := Decide(mode, FormData(name, email, password, confirmPassword, role));
    }
  }

  /**
   * Filling in a fresh form without touching the role buttons and submitting
   * it in signup mode creates a customer when the signup goes through.
   */
  method SignupWithDefaultRole(n: string, e: string, pw: string) returns (o: Outcome)
    ensures o == Decide(SignupMode, FormData(n, e, pw, pw, Customer))
    ensures o.CallSignup? ==> o.role == Customer
  {
    var form := new AuthForm();
    form.SetName(n);
    form.SetEmail(e);
    form.SetPassword(pw);
    form.SetConfirmPassword(pw);
    o := form.Submit(SignupMode);
  }
}
