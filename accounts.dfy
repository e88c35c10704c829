/** The user routes of the server (server/index.js): registration, login,
    and the three-step password reset by one-time password (request an OTP
    for a phone number, verify it for a reset token, reset the password
    with the token). The users collection is a sequence in natural order,
    the order in which `findOne` meets documents. Hashing, randomness and
    the clock are parameters: `hashedPassword` is what bcrypt produced,
    `compare` stands for bcrypt's comparison, `code` and `token` are the
    random values drawn, `now` is `Date.now()`. */
module Accounts {
  import opened Wrappers
  import opened Models
  import opened Collections
  import opened Text

  /** An OTP stays valid for five minutes. */
  const OtpLifetime: int := 5 * 60 * 1000
  /** A reset token stays valid for fifteen minutes. */
  const ResetLifetime: int := 15 * 60 * 1000

  datatype AuthError =
    | EmailExists
    | InvalidUser(paths: set<string>)
    | InvalidCredentials
    | RoleMismatch
    | PhoneNotFound
    | InvalidOrExpiredOtp
    | InvalidOrExpiredSession

  // -----------------------------------------------------------------------
  // Queries

  /** Characters `phone.replace(/[\s-]/g, '')` removes. */
  predicate IsPhoneSeparator(c: char) {
    IsSpace(c) || c == '-'
  }

  /** The phone number with white space and dashes removed, other
      characters kept in order. */
  function CleanPhone(phone: string): (r: string)
    ensures forall i :: 0 <= i < |r| ==> !IsPhoneSeparator(r[i])
    ensures forall c :: c in phone && !IsPhoneSeparator(c) ==> c in r
    ensures forall c :: c in r ==> c in phone
    ensures (forall i :: 0 <= i < |phone| ==> !IsPhoneSeparator(phone[i])) ==> r == phone
  {
    if |phone| == 0 then ""
    else if IsPhoneSeparator(phone[0]) then CleanPhone(phone[1..])
    else [phone[0]] + CleanPhone(phone[1..])
  }

  /** The same cleaning stated from the other end: the kept characters of
      all but the last character, then the last one unless it is a
      separator. */
  function DropSeparators(phone: string): string {
    if |phone| == 0 then ""
    else DropSeparators(phone[..|phone| - 1])
         + (if IsPhoneSeparator(phone[|phone| - 1]) then "" else [phone[|phone| - 1]])
  }

  /** Cleaning two pieces of a number separately and joining the results is
      cleaning the whole number. */
  lemma {:induction false} CleanPhoneConcat(a: string, b: string)
    ensures CleanPhone(a + b) == CleanPhone(a) + CleanPhone(b)
    decreases |a|
  {
    if |a| > 0 {
      assert (a + b)[0] == a[0];
      assert (a + b)[1..] == a[1..] + b;
      CleanPhoneConcat(a[1..], b);
    } else {
      assert a + b == b;
    }
  }

  /** `replace(/[\s-]/g, '')` keeps exactly the non-separator characters,
      in their order and with their repetitions. */
  lemma {:induction false} CleanPhoneKeepsOrder(phone: string)
    ensures CleanPhone(phone) == DropSeparators(phone)
    decreases |phone|
  {
    if |phone| > 0 {
      var init := phone[..|phone| - 1];
      var last := phone[|phone| - 1];
      assert phone == init + [last];
      CleanPhoneConcat(init, [last]);
      CleanPhoneKeepsOrder(init);
      assert [last][1..] == [];
    }
  }

  /** A number made only of spaces and dashes cleans to the empty string,
      and the empty pattern matches every user who has a phone. */
  lemma {:induction false} BlankPhoneMatchesAny(phone: string, u: User)
    requires forall i :: 0 <= i < |phone| ==> IsPhoneSeparator(phone[i])
    ensures CleanPhone(phone) == ""
    ensures u.phone.Some? ==> PhoneMatches(u, CleanPhone(phone))
    decreases |phone|
  {
    if |phone| > 0 {
      BlankPhoneMatchesAny(phone[1..], u);
    }
  }

  /** Cleaning a number twice is cleaning it once. */
  lemma CleanPhoneIdempotent(phone: string)
    ensures CleanPhone(CleanPhone(phone)) == CleanPhone(phone)
  {
  }

  /** `{ phone: new RegExp(cleanPhone, 'i') }`: the user has a phone and the
      cleaned number occurs in it. */
  predicate PhoneMatches(u: User, cleanPhone: string)
    ensures PhoneMatches(u, cleanPhone) ==> u.phone.Some? && |cleanPhone| <= |u.phone.value|
    ensures cleanPhone == "" ==> (PhoneMatches(u, cleanPhone) <==> u.phone.Some?)
  {
    u.phone.Some? && IsSubstring(cleanPhone, u.phone.value)
  }

  /** `otp` equals the stored one and `otpExpires > now`. */
  predicate OtpAccepts(u: User, otp: string, now: Timestamp) {
    u.otp == Some(otp) && u.otpExpires.Some? && now < u.otpExpires.value
  }

  /** `resetPasswordToken` equals `token` and `resetPasswordExpires > now`. */
  predicate ResetAccepts(u: User, token: string, now: Timestamp) {
    u.resetPasswordToken == Some(token) && u.resetPasswordExpires.Some? && now < u.resetPasswordExpires.value
  }

  function EmailQuery(email: string): User -> bool {
    (u: User) => u.email == email
  }

  function PhoneQuery(phone: string): User -> bool {
    (u: User) => PhoneMatches(u, CleanPhone(phone))
  }

  function OtpQuery(phone: string, otp: string, now: Timestamp): User -> bool {
    (u: User) => PhoneMatches(u, CleanPhone(phone)) && OtpAccepts(u, otp, now)
  }

  function ResetQuery(token: string, now: Timestamp): User -> bool {
    (u: User) => ResetAccepts(u, token, now)
  }

  /** No two users share an email (the schema's unique index). */
  ghost predicate EmailsUnique(users: seq<User>) {
    forall i, j :: 0 <= i < j < |users| ==> users[i].email != users[j].email
  }

  /** Fields other than the OTP and reset fields are the same. */
  predicate SameAccount(a: User, b: User) {
    a.name == b.name && a.email == b.email && a.phone == b.phone && a.role == b.role
  }

  // -----------------------------------------------------------------------
  // Transitions of one user record

  /** Step 1: store `code` as the OTP, valid for five minutes from `now`.
      It is accepted exactly until then; the reset fields are untouched. */
  function IssueOtp(u: User, code: nat, now: Timestamp): (r: User)
    ensures SameAccount(r, u) && r.password == u.password
    ensures forall x, t :: OtpAccepts(r, x, t) <==> x == Decimal(code) && t < now + OtpLifetime
    ensures r.resetPasswordToken == u.resetPasswordToken && r.resetPasswordExpires == u.resetPasswordExpires
  {
    u.(otp := Some(Decimal(code)), otpExpires := Some(now + OtpLifetime))
  }

  /** Step 2: the OTP is used up, and `token` is accepted for fifteen
      minutes from `now`. */
  function RedeemOtp(u: User, token: string, now: Timestamp): (r: User)
    ensures SameAccount(r, u) && r.password == u.password
    ensures forall x, t :: !OtpAccepts(r, x, t)
    ensures r.otp.None? && r.otpExpires.None?
    ensures forall x, t :: ResetAccepts(r, x, t) <==> x == token && t < now + ResetLifetime
  {
    u.(resetPasswordToken := Some(token), resetPasswordExpires := Some(now + ResetLifetime),
       otp := None, otpExpires := None)
  }

  /** Step 3: the password becomes `hashedPassword` and the token is used
      up; the OTP fields are untouched. */
  function ApplyReset(u: User, hashedPassword: string): (r: User)
    ensures SameAccount(r, u) && r.password == hashedPassword
    ensures forall x, t :: !ResetAccepts(r, x, t)
    ensures r.resetPasswordToken.None? && r.resetPasswordExpires.None?
    ensures r.otp == u.otp && r.otpExpires == u.otpExpires
  {
    u.(password := hashedPassword, resetPasswordToken := None, resetPasswordExpires := None)
  }

  /** The code drawn by `Math.floor(100000 + Math.random() * 900000)` is
      stored as six decimal digits. */
  lemma OtpHasSixDigits(code: nat)
    requires 100000 <= code <= 999999
    ensures |Decimal(code)| == 6
    ensures forall i :: 0 <= i < 6 ==> IsDigit(Decimal(code)[i])
  {
    assert Pow10(5) == 100000 && Pow10(6) == 1000000;
    DecimalLength(code, 6);
  }

  /** The whole reset sequence on one record: an OTP issued at `t0` and
      verified at `t1 < t0 + 5 min` yields a token that resets the password
      at `t2 < t1 + 15 min`, after which neither the OTP nor the token is
      accepted again. */
  lemma ResetSequence(u: User, code: nat, token: string, hashed: string, t0: Timestamp, t1: Timestamp, t2: Timestamp)
    requires t1 < t0 + OtpLifetime && t2 < t1 + ResetLifetime
    ensures OtpAccepts(IssueOtp(u, code, t0), Decimal(code), t1)
    ensures ResetAccepts(RedeemOtp(IssueOtp(u, code, t0), token, t1), token, t2)
    ensures var done := ApplyReset(RedeemOtp(IssueOtp(u, code, t0), token, t1), hashed);
      done.password == hashed
      && (forall x, t :: !OtpAccepts(done, x, t) && !ResetAccepts(done, x, t))
  {
  }

  /** `role || 'Customer'` */
  function RoleOrCustomer(role: Option<string>): (r: string)
    ensures role.None? || role.value == "" ==> r == "Customer"
    ensures role.Some? && role.value != "" ==> r == role.value
  {
    if role.Some? && role.value != "" then role.value else "Customer"
  }

  /** The body of `new User(...)` in the register handler. */
  function RegistrationInput(name: Option<string>, email: string, phone: Option<string>,
                             hashedPassword: string, role: Option<string>): UserInput
  {
    UserInput(name, Some(email), phone, Some(hashedPassword), Some(RoleOrCustomer(role)))
  }

  /** A registration that names no role, or the role "Customer" (as the
      sign-up page does), creates a Customer. */
  lemma RegistrationRole(name: Option<string>, email: string, phone: Option<string>,
                         hashedPassword: string, role: Option<string>)
    requires role.None? || role == Some("") || role == Some("Customer")
    requires NewUser(RegistrationInput(name, email, phone, hashedPassword, role)).Success?
    ensures NewUser(RegistrationInput(name, email, phone, hashedPassword, role)).value.role == Customer
  {
    var made := NewUser(RegistrationInput(name, email, phone, hashedPassword, role));
    assert made.value.role.Name() == "Customer";
  }

  predicate EmailTaken(users: seq<User>, email: string) {
    Find(users, EmailQuery(email)).Some?
  }

  class UserStore {
    var users: seq<User>

    ghost predicate Valid()
      reads this
    {
      EmailsUnique(users)
    }

    constructor ()
      ensures Valid() && users == []
    {
      users := [];
    }

    /** POST /api/register: refused when the email is taken; otherwise the
        user is created (role defaulting to Customer) if the schema accepts
        it. The result is the new user's position. */
    method Register(name: Option<string>, email: string, phone: Option<string>,
                    hashedPassword: string, role: Option<string>) returns (r: Result<nat, AuthError>)
      requires Valid()
      modifies this
      ensures Valid()
      ensures EmailTaken(old(users), email) ==> r == Failure(EmailExists) && users == old(users)
      ensures !EmailTaken(old(users), email) ==>
        var made := NewUser(RegistrationInput(name, email, phone, hashedPassword, role));
        && (made.Failure? ==> r == Failure(InvalidUser(made.error.paths)) && users == old(users))
        && (made.Success? ==> r == Success(|old(users)|) && users == old(users) + [made.value])
    {
      if Find(users, EmailQuery(email)).Some? {
        return Failure(EmailExists);
      }
      var made := NewUser(RegistrationInput(name, email, phone, hashedPassword, role));
      if made.Failure? {
        return Failure(InvalidUser(made.error.paths));
      }
      assert forall k :: 0 <= k < |users| ==> users[k].email != email;
      users := users + [made.value];
      return Success(|users| - 1);
    }

    /** POST /api/login: the user with that email whose stored hash matches
        the password; a role sent with the request must be the user's. */
    method Login(email: string, password: string, role: Option<string>,
                 compare: (string, string) -> bool) returns (r: Result<nat, AuthError>)
      ensures var i := Find(users, EmailQuery(email));
        && (i.None? || !compare(password, users[i.value].password) ==> r == Failure(InvalidCredentials))
        && (i.Some? && compare(password, users[i.value].password) ==>
              if role.Some? && role.value != "" && role.value != users[i.value].role.Name()
              then r == Failure(RoleMismatch)
              else r == Success(i.value))
    {
      var i := Find(users, EmailQuery(email));
      if i.None? || !compare(password, users[i.value].password) {
        return Failure(InvalidCredentials);
      }
      if role.Some? && role.value != "" && role.value != users[i.value].role.Name() {
        return Failure(RoleMismatch);
      }
      return Success(i.value);
    }

    /** POST /api/forgot-password-mobile: the first user whose phone matches
        gets the OTP `code`, valid five minutes; it is returned as the
        simulated SMS. */
    method RequestOtp(phone: string, code: nat, now: Timestamp) returns (r: Result<string, AuthError>)
      requires Valid()
      requires 100000 <= code <= 999999
      modifies this
      ensures Valid()
      ensures var i := Find(old(users), PhoneQuery(phone));
        && (i.None? ==> r == Failure(PhoneNotFound) && users == old(users))
        && (i.Some? ==>
              r == Success(Decimal(code))
              && users == old(users)[i.value := IssueOtp(old(users)[i.value], code, now)])
    {
      var i := Find(users, PhoneQuery(phone));
      if i.None? {
        return Failure(PhoneNotFound);
      }
      users := users[i.value := IssueOtp(users[i.value], code, now)];
      return Success(Decimal(code));
    }

    /** POST /api/verify-otp-mobile: the first user whose phone matches and
        whose unexpired OTP equals `otp` has it cleared and receives
        `token`, valid fifteen minutes. */
    method VerifyOtp(phone: string, otp: string, token: string, now: Timestamp) returns (r: Result<string, AuthError>)
      requires Valid()
      modifies this
      ensures Valid()
      ensures var i := Find(old(users), OtpQuery(phone, otp, now));
        && (i.None? ==> r == Failure(InvalidOrExpiredOtp) && users == old(users))
        && (i.Some? ==>
              r == Success(token)
              && users == old(users)[i.value := RedeemOtp(old(users)[i.value], token, now)])
    {
      var i := Find(users, OtpQuery(phone, otp, now));
      if i.None? {
        return Failure(InvalidOrExpiredOtp);
      }
      users := users[i.value := RedeemOtp(users[i.value], token, now)];
      return Success(token);
    }

    /** POST /api/reset-password: the first user holding `token`, unexpired,
        gets the new password and loses the token; otherwise nobody
        changes. */
    method ResetPassword(token: string, hashedPassword: string, now: Timestamp) returns (r: Result<(), AuthError>)
      requires Valid()
      modifies this
      ensures Valid()
      ensures var i := Find(old(users), ResetQuery(token, now));
        && (i.None? ==> r == Failure(InvalidOrExpiredSession) && users == old(users))
        && (i.Some? ==>
              r == Success(())
              && users == old(users)[i.value := ApplyReset(old(users)[i.value], hashedPassword)])
    {
      var i := Find(users, ResetQuery(token, now));
      if i.None? {
        return Failure(InvalidOrExpiredSession);
      }
      users := users[i.value := ApplyReset(users[i.value], hashedPassword)];
      return Success(());
    }
  }
}
