/** Client-side form checks of the sign-in, sign-up and password-reset
    pages (src/Login.jsx, src/Signup.jsx, src/ResetPassword.jsx): the
    password rule lists, the email pattern, and the two forms whose
    `validate` fills an error dictionary field by field. */
module Validators {
  import opened Wrappers
  import opened Models
  import opened Text

  // -----------------------------------------------------------------------
  // Password rules

  /** One entry of a page's `passwordRules`. */
  datatype PasswordRule =
    | MinLength(n: nat)    // pw.length >= n
    | LongerThan(n: nat)   // pw.length > n
    | HasUpper             // /[A-Z]/
    | HasLower             // /[a-z]/
    | HasDigit             // /[0-9]/
    | HasSpecial           // /[!@#$%^&*]/

  predicate Passes(rule: PasswordRule, pw: string) {
    match rule
    case MinLength(n) => |pw| >= n
    case LongerThan(n) => |pw| > n
    case HasUpper => HasCharIn(pw, IsUpper)
    case HasLower => HasCharIn(pw, IsLower)
    case HasDigit => HasCharIn(pw, IsDigit)
    case HasSpecial => HasCharIn(pw, IsSpecial)
  }

  /** The sign-in page's rules. */
  const LoginRules: seq<PasswordRule> := [MinLength(8), HasUpper, HasLower, HasSpecial]

  /** The sign-up page's rules: the sign-in rules and a digit. */
  const SignupRules: seq<PasswordRule> := [MinLength(8), HasUpper, HasLower, HasDigit, HasSpecial]

  /** The reset page's rules: strictly more than eight characters. */
  const ResetRules: seq<PasswordRule> := [LongerThan(8), HasUpper, HasLower, HasSpecial]

  /** `passwordRules.filter(rule => !rule.test(pw))` */
  function FailedRules(rules: seq<PasswordRule>, pw: string): (r: seq<PasswordRule>)
    ensures |r| <= |rules|
    ensures forall x :: x in r <==> x in rules && !Passes(x, pw)
  {
    if rules == [] then []
    else if Passes(rules[0], pw) then FailedRules(rules[1..], pw)
    else [rules[0]] + FailedRules(rules[1..], pw)
  }

  /** `passwordRules.every(r => r(pw))` */
  predicate MeetsAll(rules: seq<PasswordRule>, pw: string) {
    forall i :: 0 <= i < |rules| ==> Passes(rules[i], pw)
  }

  /** No rule fails exactly when every rule passes: the `filter` test of
      the sign-in and sign-up pages and the `every` test of the reset page
      agree. */
  lemma NoFailedRules(rules: seq<PasswordRule>, pw: string)
    ensures FailedRules(rules, pw) == [] <==> MeetsAll(rules, pw)
  {
    if FailedRules(rules, pw) != [] {
      var x := FailedRules(rules, pw)[0];
      assert x in FailedRules(rules, pw);
    }
    if !MeetsAll(rules, pw) {
      var i :| 0 <= i < |rules| && !Passes(rules[i], pw);
      assert rules[i] in FailedRules(rules, pw);
    }
  }

  /** A sign-in password: at least eight characters, an upper-case letter,
      a lower-case letter and a special character. */
  lemma LoginPasswordRules(pw: string)
    ensures MeetsAll(LoginRules, pw) <==>
      |pw| >= 8 && HasCharIn(pw, IsUpper) && HasCharIn(pw, IsLower) && HasCharIn(pw, IsSpecial)
  {
    assert (Passes(LoginRules[0], pw) && Passes(LoginRules[1], pw) && Passes(LoginRules[2], pw)
      && Passes(LoginRules[3], pw)) ==> MeetsAll(LoginRules, pw);
  }

  /** A sign-up password: the same and a digit. */
  lemma SignupPasswordRules(pw: string)
    ensures MeetsAll(SignupRules, pw) <==>
      |pw| >= 8 && HasCharIn(pw, IsUpper) && HasCharIn(pw, IsLower)
      && HasCharIn(pw, IsDigit) && HasCharIn(pw, IsSpecial)
  {
    assert (Passes(SignupRules[0], pw) && Passes(SignupRules[1], pw) && Passes(SignupRules[2], pw)
      && Passes(SignupRules[3], pw) && Passes(SignupRules[4], pw)) ==> MeetsAll(SignupRules, pw);
  }

  /** A new password on the reset page: more than eight characters, upper,
      lower and special; no digit needed. */
  lemma ResetPasswordRules(pw: string)
    ensures MeetsAll(ResetRules, pw) <==>
      |pw| > 8 && HasCharIn(pw, IsUpper) && HasCharIn(pw, IsLower) && HasCharIn(pw, IsSpecial)
  {
    assert (Passes(ResetRules[0], pw) && Passes(ResetRules[1], pw) && Passes(ResetRules[2], pw)
      && Passes(ResetRules[3], pw)) ==> MeetsAll(ResetRules, pw);
  }

  /** Every password the reset or the sign-up page accepts also passes the
      sign-in rules. */
  lemma StricterPagesImplyLogin(pw: string)
    ensures MeetsAll(ResetRules, pw) ==> MeetsAll(LoginRules, pw)
    ensures MeetsAll(SignupRules, pw) ==> MeetsAll(LoginRules, pw)
  {
    LoginPasswordRules(pw);
    SignupPasswordRules(pw);
    ResetPasswordRules(pw);
  }

  /** The rule sets differ on length: an eight-character password passes
      sign-in but not reset. */
  lemma EightCharactersDiffer()
    ensures MeetsAll(LoginRules, "Abcdefg!") && !MeetsAll(ResetRules, "Abcdefg!")
  {
    var pw := "Abcdefg!";
    assert Passes(HasUpper, pw) by { assert IsUpper(pw[0]); }
    assert Passes(HasLower, pw) by { assert IsLower(pw[1]); }
    assert Passes(HasSpecial, pw) by { assert IsSpecial(pw[7]); }
    assert !Passes(ResetRules[0], pw);
  }

  /** The rule sets differ on digits: a password without one passes reset
      but not sign-up. */
  lemma DigitlessDiffers()
    ensures MeetsAll(ResetRules, "Abcdefgh!") && !MeetsAll(SignupRules, "Abcdefgh!")
  {
    var pw := "Abcdefgh!";
    assert Passes(HasUpper, pw) by { assert IsUpper(pw[0]); }
    assert Passes(HasLower, pw) by { assert IsLower(pw[1]); }
    assert Passes(HasSpecial, pw) by { assert IsSpecial(pw[8]); }
    assert !Passes(SignupRules[3], pw) by {
      forall i | 0 <= i < |pw| ensures !IsDigit(pw[i]) {}
    }
  }

  // -----------------------------------------------------------------------
  // Email pattern

  /** `s[i..j]` is a non-empty run of non-space characters (`\S+`). */
  predicate NonSpaceRun(s: string, i: int, j: int) {
    0 <= i < j <= |s| && forall k :: i <= k < j ==> !IsSpace(s[k])
  }

  /** `\S+@\S+\.\S+` matches `s[start..end]` with the `@` at `at` and the
      `.` at `dot`. */
  predicate EmailMatchAt(s: string, start: int, at: int, dot: int, end: int) {
    && NonSpaceRun(s, start, at)
    && 0 <= at < |s| && s[at] == '@'
    && NonSpaceRun(s, at + 1, dot)
    && 0 <= dot < |s| && s[dot] == '.'
    && NonSpaceRun(s, dot + 1, end)
  }

  /** `\S+@\S+\.\S` matches `s[start..dot + 2]`. */
  predicate SignupMatchAt(s: string, start: int, at: int, dot: int) {
    EmailMatchAt(s, start, at, dot, dot + 2)
  }

  /** `/\S+@\S+\.\S+/.test(s)` (not anchored: a match anywhere). */
  predicate LoginEmailOk(s: string) {
    exists start, at, dot, end | 0 <= start < |s| && 0 <= at < |s| && 0 <= dot < |s| && 0 <= end <= |s| ::
      EmailMatchAt(s, start, at, dot, end)
  }

  /** `/\S+@\S+\.\S/.test(s)` */
  predicate SignupEmailOk(s: string) {
    exists start, at, dot | 0 <= start < |s| && 0 <= at < |s| && 0 <= dot < |s| ::
      SignupMatchAt(s, start, at, dot)
  }

  /** Because neither pattern is anchored, the two pages accept exactly the
      same email strings. */
  lemma EmailPatternsAgree(s: string)
    ensures LoginEmailOk(s) <==> SignupEmailOk(s)
  {
    if LoginEmailOk(s) {
      var start, at, dot, end :| EmailMatchAt(s, start, at, dot, end);
      assert EmailMatchAt(s, start, at, dot, end);
      assert !IsSpace(s[dot + 1]);
      assert NonSpaceRun(s, dot + 1, dot + 2);
      assert SignupMatchAt(s, start, at, dot);
    }
    if SignupEmailOk(s) {
      var start, at, dot :| SignupMatchAt(s, start, at, dot);
      assert SignupMatchAt(s, start, at, dot);
      assert EmailMatchAt(s, start, at, dot, dot + 2);
    }
  }

  /** An address with its parts in place is accepted, and a string with no
      `@` is not. */
  lemma EmailExamples()
    ensures LoginEmailOk("a@b.c")
    ensures !LoginEmailOk("ab.c")
  {
    assert EmailMatchAt("a@b.c", 0, 1, 3, 5);
    assert forall i | 0 <= i < |"ab.c"| :: "ab.c"[i] != '@';
  }

  // -----------------------------------------------------------------------
  // Error dictionaries

  const EmailRequired := "Email is required"
  const EmailInvalid := "Email is invalid"

  /** The email entry the sign-in and sign-up pages record, if any. */
  function EmailError(email: string): (r: Option<string>)
    ensures email == "" ==> r == Some(EmailRequired)
    ensures email != "" ==> (r.None? <==> LoginEmailOk(email))
    ensures email != "" && r.Some? ==> r.value == EmailInvalid
  {
    if email == "" then Some(EmailRequired)
    else if !LoginEmailOk(email) then Some(EmailInvalid)
    else None
  }

  /** The errors the sign-in page's `validate` records. */
  function LoginErrors(email: string, password: string): (r: map<string, string>)
    ensures r.Keys <= {"email", "password"}
    ensures "email" in r <==> email == "" || !LoginEmailOk(email)
    ensures "email" in r ==> r["email"] == (if email == "" then EmailRequired else EmailInvalid)
    ensures "password" in r <==> !MeetsAll(LoginRules, password)
    ensures "password" in r ==> r["password"] == "Password does not meet requirements"
  {
    NoFailedRules(LoginRules, password);
    var withEmail := match EmailError(email)
      case Some(m) => map["email" := m]
      case None => map[];
    if |FailedRules(LoginRules, password)| > 0
    then withEmail["password" := "Password does not meet requirements"]
    else withEmail
  }

  /** The errors the sign-up page's `validate` records, entry by entry. */
  function SignupErrors(name: string, email: string, phone: string, password: string, confirm: string): (r: map<string, string>)
    ensures r.Keys <= {"name", "email", "phone", "password", "confirmPassword"}
    ensures "name" in r <==> name == ""
    ensures "phone" in r <==> phone == ""
    ensures "confirmPassword" in r <==> password != confirm
    ensures "password" in r <==> |FailedRules(SignupRules, password)| > 0
    ensures "name" in r ==> r["name"] == "Full Name is required"
    ensures "phone" in r ==> r["phone"] == "Phone is required"
    ensures "password" in r ==> r["password"] == "Please meet all password requirements"
    ensures "confirmPassword" in r ==> r["confirmPassword"] == "Passwords do not match"
  {
    var e0: map<string, string> := if name == "" then map["name" := "Full Name is required"] else map[];
    var e1 := if email == "" then e0["email" := EmailRequired]
      else if !SignupEmailOk(email) then e0["email" := EmailInvalid]
      else e0;
    var e2 := if phone == "" then e1["phone" := "Phone is required"] else e1;
    var e3 := if |FailedRules(SignupRules, password)| > 0
      then e2["password" := "Please meet all password requirements"] else e2;
    if password != confirm then e3["confirmPassword" := "Passwords do not match"] else e3
  }

  /** Each sign-up field has its own entry, present exactly when its check
      fails; the email entry is the one the sign-in page would record. */
  lemma SignupErrorEntries(name: string, email: string, phone: string, password: string, confirm: string)
    ensures var r := SignupErrors(name, email, phone, password, confirm);
      && r.Keys <= {"name", "email", "phone", "password", "confirmPassword"}
      && ("name" in r <==> name == "")
      && ("email" in r <==> EmailError(email).Some?)
      && ("email" in r ==> r["email"] == EmailError(email).value)
      && ("phone" in r <==> phone == "")
      && ("password" in r <==> !MeetsAll(SignupRules, password))
      && ("confirmPassword" in r <==> password != confirm)
  {
    NoFailedRules(SignupRules, password);
    EmailPatternsAgree(email);
  }

  // -----------------------------------------------------------------------
  // Forms

  /** The body of the sign-in request: the form and the selected role. */
  datatype LoginRequest = LoginRequest(email: string, password: string, role: Option<Role>)

  /** The body of the sign-up request. */
  datatype RegisterRequest = RegisterRequest(name: string, email: string, phone: string, password: string, role: Role)

  /** The server's answer to the sign-in request: accepted, refused with
      its `message`, or no answer at all (the fetch threw). */
  datatype LoginAnswer = SignedIn | Refused(message: string) | Unreachable

  /** The sign-in page's state; `signedIn` records the navigation to the
      dashboard. */
  class LoginForm {
    var role: Option<Role>
    var email: string
    var password: string
    var errors: map<string, string>
    var signedIn: bool

    constructor ()
      ensures role.None? && email == "" && password == "" && errors == map[] && !signedIn
    {
      role := None;
      email := "";
      password := "";
      errors := map[];
      signedIn := false;
    }

    /** `validate`: fills the dictionary entry by entry and reports whether
        it stayed empty. */
    method Validate() returns (ok: bool)
      modifies this
      ensures errors == LoginErrors(email, password)
      ensures ok <==> errors == map[]
      ensures role == old(role) && email == old(email) && password == old(password)
      ensures signedIn == old(signedIn)
    {
      var temp: map<string, string> := map[];
      if email == "" {
        temp := temp["email" := EmailRequired];
      } else if !LoginEmailOk(email) {
        temp := temp["email" := EmailInvalid];
      }
      var failed := FailedRules(LoginRules, password);
      if |failed| > 0 {
        temp := temp["password" := "Password does not meet requirements"];
      }
      errors := temp;
      ok := temp == map[];
    }

    /** `handleSubmit`, given the server's answer: the request is built
        only when `validate` passes. A refusal adds the server's message
        under "form" to the errors as they were when the form was submitted
        (the handler's `errors` is the one of the render that ran it, not
        the map `validate` has just stored). */
    method Submit(answer: LoginAnswer) returns (request: Option<LoginRequest>)
      modifies this
      ensures request.Some? <==> LoginErrors(email, password) == map[]
      ensures request.Some? ==> request.value == LoginRequest(email, password, role)
      ensures request.None? ==> errors == LoginErrors(email, password) && signedIn == old(signedIn)
      ensures request.Some? && answer.Refused? ==>
        errors == old(errors)["form" := answer.message] && signedIn == old(signedIn)
      ensures request.Some? && answer.SignedIn? ==> errors == map[] && signedIn
      ensures request.Some? && answer.Unreachable? ==> errors == map[] && signedIn == old(signedIn)
      ensures role == old(role) && email == old(email) && password == old(password)
    {
      var before := errors;
      var ok := Validate();
      if !ok {
        request := None;
        return;
      }
      request := Some(LoginRequest(email, password, role));
      match answer
      case SignedIn =>
        signedIn := true;
      case Refused(m) =>
        errors := before["form" := m];
      case Unreachable =>
    }
  }

  /** The fields of the sign-up form. */
  datatype SignupField = Name | Email | Phone | Password | ConfirmPassword {
    function Key(): string {
      match this
      case Name => "name"
      case Email => "email"
      case Phone => "phone"
      case Password => "password"
      case ConfirmPassword => "confirmPassword"
    }
  }

  /** The sign-up page's state. */
  class SignupForm {
    var name: string
    var email: string
    var phone: string
    var password: string
    var confirmPassword: string
    var errors: map<string, string>

    constructor ()
      ensures name == "" && email == "" && phone == "" && password == "" && confirmPassword == ""
      ensures errors == map[]
    {
      name := "";
      email := "";
      phone := "";
      password := "";
      confirmPassword := "";
      errors := map[];
    }

    /** `validate` */
    method Validate() returns (ok: bool)
      modifies this
      ensures errors == SignupErrors(name, email, phone, password, confirmPassword)
      ensures ok <==> errors == map[]
      ensures name == old(name) && email == old(email) && phone == old(phone)
      ensures password == old(password) && confirmPassword == old(confirmPassword)
    {
      var temp: map<string, string> := map[];
      if name == "" {
        temp := temp["name" := "Full Name is required"];
      }
      if email == "" {
        temp := temp["email" := EmailRequired];
      } else if !SignupEmailOk(email) {
        temp := temp["email" := EmailInvalid];
      }
      if phone == "" {
        temp := temp["phone" := "Phone is required"];
      }
      var failed := FailedRules(SignupRules, password);
      if |failed| > 0 {
        temp := temp["password" := "Please meet all password requirements"];
      }
      if password != confirmPassword {
        temp := temp["confirmPassword" := "Passwords do not match"];
      }
      errors := temp;
      ok := temp == map[];
    }

    /** `handleChange`: stores the value and clears that field's error
        only. */
    method HandleChange(field: SignupField, value: string)
      modifies this
      ensures name == (if field == Name then value else old(name))
      ensures email == (if field == Email then value else old(email))
      ensures phone == (if field == Phone then value else old(phone))
      ensures password == (if field == Password then value else old(password))
      ensures confirmPassword == (if field == ConfirmPassword then value else old(confirmPassword))
      ensures errors == old(errors) - {field.Key()}
    {
      if field.Key() in errors {
        errors := errors - {field.Key()};
      }
      match field
      case Name => name := value;
      case Email => email := value;
      case Phone => phone := value;
      case Password => password := value;
      case ConfirmPassword => confirmPassword := value;
    }

    /** `handleSubmit`: the request carries the role Customer whatever the
        form holds. */
    method Submit() returns (request: Option<RegisterRequest>)
      modifies this
      ensures errors == SignupErrors(name, email, phone, password, confirmPassword)
      ensures request.Some? <==> errors == map[]
      ensures request.Some? ==> request.value == RegisterRequest(name, email, phone, password, Customer)
      ensures name == old(name) && email == old(email) && phone == old(phone)
      ensures password == old(password) && confirmPassword == old(confirmPassword)
    {
      var ok := Validate();
      if ok {
        request := Some(RegisterRequest(name, email, phone, password, Customer));
      } else {
        request := None;
      }
    }
  }

  /** A sign-up that passes `validate` carries a password that also passes
      the sign-in rules, a non-empty name and phone, and a matching
      confirmation. */
  lemma AcceptedSignup(name: string, email: string, phone: string, password: string, confirm: string)
    requires SignupErrors(name, email, phone, password, confirm) == map[]
    ensures name != "" && phone != "" && password == confirm
    ensures MeetsAll(LoginRules, password) && LoginErrors(email, password) == map[]
  {
    SignupErrorEntries(name, email, phone, password, confirm);
    assert "name" !in SignupErrors(name, email, phone, password, confirm);
    assert "phone" !in SignupErrors(name, email, phone, password, confirm);
    assert "confirmPassword" !in SignupErrors(name, email, phone, password, confirm);
    assert "password" !in SignupErrors(name, email, phone, password, confirm);
    assert "email" !in SignupErrors(name, email, phone, password, confirm);
    StricterPagesImplyLogin(password);
    EmailPatternsAgree(email);
    assert "email" !in LoginErrors(email, password);
    assert "password" !in LoginErrors(email, password);
  }
}
