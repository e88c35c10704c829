/** The three-step password-reset page (src/ResetPassword.jsx): the step
    advances phone -> otp -> password on successful server answers, and the
    final step checks the new password before sending it. Server answers
    are parameters of the handlers. */
module ResetFlow {
  import opened Wrappers
  import opened Validators

  datatype Step = PhoneStep | OtpStep | PasswordStep

  /** An answer of the server to one of the page's requests: a success
      carrying its data, a refusal carrying the server's message, or no
      answer at all (the fetch threw). */
  datatype Response<T> = Answered(data: T) | Refused(message: string) | Unreachable

  const SomethingWentWrong := "Something went wrong."

  /** The message a failed request leaves on the page. */
  function FailureMessage<T>(r: Response<T>): (m: string)
    requires !r.Answered?
    ensures r.Refused? ==> m == r.message
    ensures r.Unreachable? ==> m == SomethingWentWrong
  {
    if r.Refused? then r.message else SomethingWentWrong
  }

  // -----------------------------------------------------------------------
  // The step machine on its own

  /** What happens to the page: an answer to the OTP request or to the
      OTP check (successful or not), or the "Use different number" link. */
  datatype Event = OtpRequestAnswered(ok: bool) | OtpCheckAnswered(ok: bool) | DifferentNumber

  /** The step after one event. A failed request leaves the step as it
      was. */
  function NextStep(s: Step, e: Event): (r: Step)
    ensures e == OtpRequestAnswered(true) ==> r == OtpStep
    ensures e == OtpCheckAnswered(true) ==> r == PasswordStep
    ensures e == DifferentNumber ==> r == PhoneStep
    ensures e.OtpRequestAnswered? && !e.ok ==> r == s
    ensures e.OtpCheckAnswered? && !e.ok ==> r == s
  {
    match e
    case OtpRequestAnswered(ok) => if ok then OtpStep else s
    case OtpCheckAnswered(ok) => if ok then PasswordStep else s
    case DifferentNumber => PhoneStep
  }

  /** The step after a series of events. */
  function Run(s: Step, events: seq<Event>): Step
    decreases |events|
  {
    if events == [] then s else Run(NextStep(s, events[0]), events[1..])
  }

  /** The page shows each form only at its step: the phone form, and the
      OTP form with its "Use different number" link. */
  predicate Enabled(s: Step, e: Event) {
    match e
    case OtpRequestAnswered(_) => s == PhoneStep
    case OtpCheckAnswered(_) => s == OtpStep
    case DifferentNumber => s == OtpStep
  }

  /** Every event of the series is offered by the page at the step it
      arrives in. */
  predicate Reachable(s: Step, events: seq<Event>)
    decreases |events|
  {
    events == [] || (Enabled(s, events[0]) && Reachable(NextStep(s, events[0]), events[1..]))
  }

  /** Reaching the OTP step from the phone step takes a successful OTP
      request. */
  lemma {:induction false} OtpStepNeedsRequest(s: Step, events: seq<Event>)
    requires s != OtpStep && Run(s, events) == OtpStep
    ensures OtpRequestAnswered(true) in events
    decreases |events|
  {
    if events != [] {
      var next := NextStep(s, events[0]);
      if events[0] == OtpRequestAnswered(true) {
      } else {
        assert next != OtpStep;
        OtpStepNeedsRequest(next, events[1..]);
        assert events == [events[0]] + events[1..];
      }
    }
  }

  /** On the page, reaching the password step from the phone step takes a
      successful OTP request followed, later, by a successful OTP check. */
  lemma {:induction false} PasswordStepNeedsBoth(s: Step, events: seq<Event>)
    requires s != PasswordStep && Reachable(s, events) && Run(s, events) == PasswordStep
    ensures exists j :: (0 <= j < |events| && events[j] == OtpCheckAnswered(true)
                         && (s == OtpStep || OtpRequestAnswered(true) in events[..j]))
    decreases |events|
  {
    if events != [] {
      var e := events[0];
      var next := NextStep(s, e);
      var rest := events[1..];
      assert Run(s, events) == Run(next, rest);
      if e == OtpCheckAnswered(true) {
        assert events[0] == OtpCheckAnswered(true);
      } else {
        assert next != PasswordStep;
        PasswordStepNeedsBoth(next, rest);
        var j :| 0 <= j < |rest| && rest[j] == OtpCheckAnswered(true)
          && (next == OtpStep || OtpRequestAnswered(true) in rest[..j]);
        assert events[j + 1] == OtpCheckAnswered(true);
        assert events[..j + 1] == [e] + rest[..j];
        if s == PhoneStep {
          // the only event the phone step offers is the OTP request
          assert e.OtpRequestAnswered?;
          if e.ok {
            assert OtpRequestAnswered(true) in events[..j + 1];
          } else {
            assert next == PhoneStep;
            assert OtpRequestAnswered(true) in rest[..j];
          }
        }
      }
    }
  }

  // -----------------------------------------------------------------------
  // Validation of the new password

  const RulesMessage := "Password must be > 8 chars, contain uppercase, lowercase, and special char."
  const MismatchMessage := "Passwords do not match."

  /** The check before the reset request: the rules first, the match only
      once the rules pass. */
  function NewPasswordError(newPassword: string, confirm: string): (r: Option<string>)
    ensures r.None? <==> MeetsAll(ResetRules, newPassword) && newPassword == confirm
    ensures !MeetsAll(ResetRules, newPassword) ==> r == Some(RulesMessage)
    ensures r == Some(MismatchMessage) <==> MeetsAll(ResetRules, newPassword) && newPassword != confirm
  {
    if !MeetsAll(ResetRules, newPassword) then Some(RulesMessage)
    else if newPassword != confirm then Some(MismatchMessage)
    else None
  }

  /** The body of the reset request. */
  datatype ResetRequest = ResetRequest(resetToken: string, newPassword: string)

  /** The page's state. */
  class ResetPage {
    var step: Step
    var phone: string
    var otp: string
    var resetToken: string
    var newPassword: string
    var confirmPassword: string
    var message: string
    var error: string
    var devOtp: string
    var done: bool   // navigated to the sign-in page

    constructor ()
      ensures step == PhoneStep && !done
      ensures phone == "" && otp == "" && resetToken == "" && newPassword == "" && confirmPassword == ""
      ensures message == "" && error == "" && devOtp == ""
    {
      step := PhoneStep;
      phone := "";
      otp := "";
      resetToken := "";
      newPassword := "";
      confirmPassword := "";
      message := "";
      error := "";
      devOtp := "";
      done := false;
    }

    /** `handleRequestOTP`, given the server's answer (its development
        OTP, empty when it sends none). */
    method HandleRequestOtp(answer: Response<string>)
      modifies this
      ensures step == NextStep(old(step), OtpRequestAnswered(answer.Answered?))
      ensures answer.Answered? ==> message == "OTP sent to your mobile number." && error == "" && devOtp == answer.data
      ensures !answer.Answered? ==> message == "" && error == FailureMessage(answer) && devOtp == ""
      ensures phone == old(phone) && otp == old(otp) && resetToken == old(resetToken)
      ensures newPassword == old(newPassword) && confirmPassword == old(confirmPassword) && done == old(done)
    {
      error := "";
      message := "";
      devOtp := "";
      match answer
      case Answered(d) =>
        message := "OTP sent to your mobile number.";
        step := OtpStep;
        if d != "" {
          devOtp := d;
        }
      case Refused(m) =>
        error := m;
      case Unreachable =>
        error := SomethingWentWrong;
    }

    /** `handleVerifyOTP`, given the server's answer (the reset token). */
    method HandleVerifyOtp(answer: Response<string>)
      modifies this
      ensures step == NextStep(old(step), OtpCheckAnswered(answer.Answered?))
      ensures answer.Answered? ==> message == "OTP Verified." && error == "" && resetToken == answer.data
      ensures !answer.Answered? ==> message == "" && error == FailureMessage(answer) && resetToken == old(resetToken)
      ensures phone == old(phone) && otp == old(otp) && devOtp == old(devOtp)
      ensures newPassword == old(newPassword) && confirmPassword == old(confirmPassword) && done == old(done)
    {
      error := "";
      message := "";
      match answer
      case Answered(token) =>
        message := "OTP Verified.";
        resetToken := token;
        step := PasswordStep;
      case Refused(m) =>
        error := m;
      case Unreachable =>
        error := SomethingWentWrong;
    }

    /** "Use different number". */
    method UseDifferentNumber()
      modifies this
      ensures step == NextStep(old(step), DifferentNumber)
      ensures phone == old(phone) && otp == old(otp) && resetToken == old(resetToken)
      ensures newPassword == old(newPassword) && confirmPassword == old(confirmPassword)
      ensures message == old(message) && error == old(error) && devOtp == old(devOtp) && done == old(done)
    {
      step := PhoneStep;
    }

    /** `handleResetPassword`: the request is sent only when the new
        password passes the checks; `answer` is what the server would say
        to it. */
    method HandleResetPassword(answer: Response<()>) returns (sent: Option<ResetRequest>)
      modifies this
      ensures sent.Some? <==> NewPasswordError(newPassword, confirmPassword).None?
      ensures sent.Some? ==> sent.value == ResetRequest(resetToken, newPassword)
      ensures sent.None? ==> error == NewPasswordError(newPassword, confirmPassword).value && !done
      ensures sent.Some? && answer.Answered? ==> done && error == ""
      ensures sent.Some? && !answer.Answered? ==> !done && error == FailureMessage(answer)
      ensures step == old(step) && phone == old(phone) && otp == old(otp) && resetToken == old(resetToken)
      ensures newPassword == old(newPassword) && confirmPassword == old(confirmPassword)
      ensures message == old(message) && devOtp == old(devOtp)
    {
      error := "";
      done := false;
      var problem := NewPasswordError(newPassword, confirmPassword);
      if problem.Some? {
        error := problem.value;
        sent := None;
        return;
      }
      sent := Some(ResetRequest(resetToken, newPassword));
      match answer
      case Answered(_) =>
        done := true;
      case Refused(m) =>
        error := m;
      case Unreachable =>
        error := SomethingWentWrong;
    }
  }
}
