/** The appointments page (src/Appointments.jsx): which status buttons an
    appointment offers, and the booking form whose submit handler cleans
    the payload before sending it. */
module Appointments {
  import opened Wrappers
  import opened Models

  // -----------------------------------------------------------------------
  // Status buttons

  /** The statuses an appointment's buttons move it to. The buttons show
      only on the full staff view: not in the compact widget and not in a
      customer's own view. */
  function Actions(status: AppointmentStatus, compact: bool, customerView: bool): (r: set<AppointmentStatus>)
    ensures compact || customerView ==> r == {}
    ensures !compact && !customerView ==>
      && (Scheduled in r <==> status == Pending)
      && (AppointmentStatus.Completed in r <==> status == Scheduled)
      && (AppointmentStatus.Cancelled in r <==> status == Pending || status == Scheduled)
      && Pending !in r
  {
    if compact || customerView then {}
    else match status
      case Pending => {Scheduled, AppointmentStatus.Cancelled}
      case Scheduled => {AppointmentStatus.Completed, AppointmentStatus.Cancelled}
      case Completed => {}
      case Cancelled => {}
  }

  /** How far along an appointment is. */
  function Rank(s: AppointmentStatus): nat {
    match s
    case Pending => 0
    case Scheduled => 1
    case Completed => 2
    case Cancelled => 2
  }

  /** Completed and Cancelled appointments offer no buttons, and every
      button moves an appointment strictly forward. */
  lemma ActionsMoveForward(status: AppointmentStatus, compact: bool, customerView: bool)
    ensures status == AppointmentStatus.Completed || status == AppointmentStatus.Cancelled ==>
      Actions(status, compact, customerView) == {}
    ensures forall t :: t in Actions(status, compact, customerView) ==> Rank(t) > Rank(status)
  {
  }

  /** A series of statuses where each follows from the one before by a
      button of the staff view. */
  predicate IsChain(c: seq<AppointmentStatus>) {
    forall i :: 0 <= i < |c| - 1 ==> c[i + 1] in Actions(c[i], false, false)
  }

  /** Each step of a chain raises the rank by at least one. */
  lemma {:induction false} ChainRank(c: seq<AppointmentStatus>, i: nat)
    requires IsChain(c) && i < |c|
    ensures Rank(c[i]) >= Rank(c[0]) + i
  {
    if i > 0 {
      ChainRank(c, i - 1);
      ActionsMoveForward(c[i - 1], false, false);
    }
  }

  /** No status comes back: an appointment is moved by at most two
      buttons in all. */
  lemma ChainsAreShort(c: seq<AppointmentStatus>)
    requires IsChain(c)
    ensures |c| <= 3
  {
    if |c| > 3 {
      ChainRank(c, 3);
    }
  }

  // -----------------------------------------------------------------------
  // Booking form

  /** The body sent by the booking form; a removed `stylist` key is
      `None`. */
  datatype Payload = Payload(customer: string, service: string, stylist: Option<string>,
                             date: string, time: string, notes: string)

  /** The server's answer to a booking: saved, refused with its `message`
      and `error` texts (empty when absent), or no answer. */
  datatype SaveAnswer = Saved | Rejected(message: string, errorText: string) | Unreachable

  /** `data.message || data.error || 'Failed to save appointment'` */
  function RejectionText(message: string, errorText: string): (t: string)
    ensures message != "" ==> t == message
    ensures message == "" && errorText != "" ==> t == errorText
    ensures message == "" && errorText == "" ==> t == "Failed to save appointment"
  {
    if message != "" then message else if errorText != "" then errorText else "Failed to save appointment"
  }

  /** The booking form's fields, the selected day and the customer of a
      customer's own view (`None` for the staff view). */
  class AppointmentForm {
    var customer: string
    var service: string
    var stylist: string
    var date: string
    var time: string
    var notes: string
    const selectedDate: string
    const customerId: Option<string>
    var error: string
    var saved: bool

    predicate IsEmpty()
      reads this
    {
      customer == "" && service == "" && stylist == "" && date == "" && time == "" && notes == ""
    }

    constructor (selectedDate: string, customerId: Option<string>)
      ensures IsEmpty() && error == "" && !saved
      ensures this.selectedDate == selectedDate && this.customerId == customerId
    {
      customer := "";
      service := "";
      stylist := "";
      date := "";
      time := "";
      notes := "";
      this.selectedDate := selectedDate;
      this.customerId := customerId;
      error := "";
      saved := false;
    }

    /** Whether the page was opened for a customer (a non-empty id). */
    predicate ForCustomer()
      reads this
    {
      customerId.Some? && customerId.value != ""
    }

    /** The cleaning step of `handleSubmit`: an empty date becomes the
        selected day, an empty stylist is dropped, and an empty customer is
        filled from the page's customer. */
    method BuildPayload() returns (p: Payload)
      ensures p.date == (if date != "" then date else selectedDate)
      ensures p.stylist.None? <==> stylist == ""
      ensures p.stylist.Some? ==> p.stylist.value == stylist && p.stylist.value != ""
      ensures customer != "" ==> p.customer == customer
      ensures customer == "" && ForCustomer() ==> p.customer == customerId.value
      ensures customer == "" && !ForCustomer() ==> p.customer == ""
      ensures ForCustomer() ==> p.customer != ""
      ensures p.service == service && p.time == time && p.notes == notes
    {
      p := Payload(customer, service, Some(stylist), if date != "" then date else selectedDate, time, notes);
      if p.stylist.value == "" {
        p := p.(stylist := None);
      }
      if p.customer == "" && customerId.Some? && customerId.value != "" {
        p := p.(customer := customerId.value);
      }
    }

    /** `handleSubmit`, given the server's answer: a saved booking empties
        the form; a failure leaves it and shows a message. */
    method Submit(answer: SaveAnswer) returns (p: Payload)
      modifies this
      ensures p.date == (if old(date) != "" then old(date) else selectedDate)
      ensures p.stylist.None? <==> old(stylist) == ""
      ensures p.stylist.Some? ==> p.stylist.value == old(stylist)
      ensures old(customer) != "" ==> p.customer == old(customer)
      ensures old(customer) == "" && ForCustomer() ==> p.customer == customerId.value
      ensures old(customer) == "" && !ForCustomer() ==> p.customer == ""
      ensures ForCustomer() ==> p.customer != ""
      ensures p.service == old(service) && p.time == old(time) && p.notes == old(notes)
      ensures answer.Saved? ==> IsEmpty() && saved && error == ""
      ensures answer.Rejected? ==> error == RejectionText(answer.message, answer.errorText) && !saved
      ensures answer.Unreachable? ==> error == "Connection error" && !saved
      ensures !answer.Saved? ==>
        customer == old(customer) && service == old(service) && stylist == old(stylist)
        && date == old(date) && time == old(time) && notes == old(notes)
    {
      error := "";
      saved := false;
      p := BuildPayload();
      match answer
      case Saved =>
        saved := true;
        customer := "";
        service := "";
        stylist := "";
        date := "";
        time := "";
        notes := "";
      case Rejected(m, e) =>
        error := RejectionText(m, e);
      case Unreachable =>
        error := "Connection error";
    }
  }
}
