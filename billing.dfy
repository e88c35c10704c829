/** The subscription -> invoice -> payment lifecycle of the server
    (server/index.js): confirming a subscription issues a Draft invoice
    copied from it; recording a payment that covers an invoice's total marks
    the invoice Paid and activates the linked subscription. The collections
    are held in memory. */
module Billing {
  import opened Wrappers
  import opened Models

  /** Seven days in milliseconds: the due date of a generated invoice. */
  const DueDelay: int := 7 * 24 * 60 * 60 * 1000

  datatype BillingError =
    | SubscriptionNotFound
    | DuplicateInvoiceNumber
    | InvalidPayment(paths: set<string>)

  /** JavaScript `x || fallback` on a number that may be absent: absent and
      0 are both falsy. */
  function NumberOr(x: Option<int>, fallback: int): (r: int)
    ensures x.Some? && x.value != 0 ==> r == x.value
    ensures x.None? || x.value == 0 ==> r == fallback
  {
    if x.Some? && x.value != 0 then x.value else fallback
  }

  /** One invoice line per subscription line: the name, or "Product" when
      the name is missing or empty; quantity and prices copied. */
  function InvoiceItemFor(item: SubscriptionItem): (r: InvoiceItem)
    ensures item.name.Some? && item.name.value != "" ==> r.description == item.name
    ensures item.name.None? || item.name.value == "" ==> r.description == Some("Product")
    ensures r.quantity == Some(item.quantity)
    ensures r.unitPrice == item.unitPrice && r.amount == item.amount
  {
    var description := if item.name.Some? && item.name.value != "" then item.name.value else "Product";
    InvoiceItem(Some(description), Some(item.quantity), item.unitPrice, item.amount)
  }

  /** The body handed to `new Invoice(...)` by the confirm handler. */
  function InvoiceInputFor(sub: Subscription, subId: Id, number: string, now: Timestamp): InvoiceInput {
    InvoiceInput(
      Some(number),
      Some(subId),
      Some(sub.customer),
      seq(|sub.items|, k requires 0 <= k < |sub.items| => InvoiceItemFor(sub.items[k])),
      Some(NumberOr(sub.subtotal, sub.totalAmount)),
      Some(NumberOr(Some(sub.taxTotal), 0)),
      Some(sub.totalAmount),
      Some("Draft"),
      Some(now + DueDelay),
      None)
  }

  /** The invoice generated when subscription `subId` is confirmed: a Draft
      whose lines and totals are copied from the subscription. It always
      passes the Invoice schema. */
  function InvoiceFor(sub: Subscription, subId: Id, number: string, now: Timestamp): (inv: Invoice)
    ensures NewInvoice(InvoiceInputFor(sub, subId, number, now)) == Success(inv)
    ensures inv.status == InvoiceStatus.Draft
    ensures inv.total == sub.totalAmount
    ensures inv.customer == sub.customer && inv.subscription == Some(subId)
    ensures inv.invoiceNumber == Some(number)
    ensures sub.subtotal.Some? && sub.subtotal.value != 0 ==> inv.subtotal == sub.subtotal
    ensures sub.subtotal.None? || sub.subtotal.value == 0 ==> inv.subtotal == Some(sub.totalAmount)
    ensures inv.taxTotal == Some(sub.taxTotal)
    ensures |inv.items| == |sub.items|
    ensures forall k :: 0 <= k < |sub.items| ==> inv.items[k] == InvoiceItemFor(sub.items[k])
    ensures inv.dueDate == Some(now + DueDelay)
  {
    NewInvoice(InvoiceInputFor(sub, subId, number, now)).value
  }

  /** The unique index on `invoiceNumber`: no two invoices share a number
      (two invoices without one clash as well). */
  ghost predicate UniqueInvoiceNumbers(invoices: map<Id, Invoice>) {
    forall i, j :: i in invoices && j in invoices && i != j ==>
      invoices[i].invoiceNumber != invoices[j].invoiceNumber
  }

  /** Why creating a subscription fails: the schema refused the listed
      paths, or the unique index already holds the number. */
  datatype CreateError =
    | InvalidSubscription(paths: set<string>)
    | DuplicateSubscriptionNumber

  /** Whether the unique index on `subscriptionNumber` already holds `number`. */
  predicate SubscriptionNumberTaken(subs: map<Id, Subscription>, number: string) {
    exists i :: i in subs && subs[i].subscriptionNumber == Some(number)
  }

  predicate NumberTaken(invoices: map<Id, Invoice>, number: Option<string>) {
    exists i :: i in invoices && invoices[i].invoiceNumber == number
  }

  /** Whether a payment covers an invoice in full (an overpayment does too). */
  predicate Covers(p: Payment, inv: Invoice) {
    inv.total <= p.amount
  }

  /** The subscriptions after an invoice linked to `link` is paid: the
      linked subscription, when it exists, becomes Active; nothing else
      changes. */
  function ActivateLinked(subs: map<Id, Subscription>, link: Option<Id>): (r: map<Id, Subscription>)
    ensures r.Keys == subs.Keys
    ensures link.Some? && link.value in subs ==> r[link.value].status == SubscriptionStatus.Active
    ensures link.Some? && link.value in subs ==>
      r[link.value] == subs[link.value].(status := SubscriptionStatus.Active)
    ensures forall k :: k in subs && link != Some(k) ==> r[k] == subs[k]
  {
    if link.Some? && link.value in subs && subs[link.value].status != SubscriptionStatus.Active then
      subs[link.value := subs[link.value].(status := SubscriptionStatus.Active)]
    else subs
  }

  /** Changing an invoice's status keeps the invoice numbers unique. */
  lemma StatusChangeKeepsNumbers(invoices: map<Id, Invoice>, k: Id, st: InvoiceStatus)
    requires UniqueInvoiceNumbers(invoices) && k in invoices
    ensures UniqueInvoiceNumbers(invoices[k := invoices[k].(status := st)])
  {
  }

  class BillingStore {
    var subscriptions: map<Id, Subscription>
    var invoices: map<Id, Invoice>
    var payments: seq<Payment>
    /** When the Payment schema was loaded: the date every payment posted
        without one receives (server/models/Payment.js:8). */
    const loadedAt: Timestamp

    ghost predicate Valid()
      reads this
    {
      UniqueInvoiceNumbers(invoices)
    }

    constructor (loadedAt: Timestamp)
      ensures Valid()
      ensures subscriptions == map[] && invoices == map[] && payments == []
      ensures this.loadedAt == loadedAt
    {
      subscriptions, invoices, payments := map[], map[], [];
      this.loadedAt := loadedAt;
    }

    /** POST /api/subscriptions. The body gets the generated `number` and
        is validated by the schema at `now`; a valid subscription is inserted
        unless the unique index already holds its number. `subId` is the id
        the driver gives the new subscription. */
    method CreateSubscription(input: SubscriptionInput, subId: Id, number: string, now: Timestamp)
      returns (r: Result<Subscription, CreateError>)
      requires Valid()
      requires subId !in subscriptions
      modifies this
      ensures Valid()
      ensures payments == old(payments) && invoices == old(invoices)
      ensures var made := NewSubscription(input.(subscriptionNumber := Some(number)), now);
        && (made.Failure? ==>
              r == Failure(InvalidSubscription(made.error.paths)) && subscriptions == old(subscriptions))
        && (made.Success? && SubscriptionNumberTaken(old(subscriptions), number) ==>
              r == Failure(DuplicateSubscriptionNumber) && subscriptions == old(subscriptions))
        && (made.Success? && !SubscriptionNumberTaken(old(subscriptions), number) ==>
              r == Success(made.value) && subscriptions == old(subscriptions)[subId := made.value])
      ensures r.Success? ==> r.value.subscriptionNumber == Some(number)
      ensures r.Success? && input.status.None? ==> r.value.status == SubscriptionStatus.Draft
    {
      var made := NewSubscription(input.(subscriptionNumber := Some(number)), now);
      if made.Failure? {
        return Failure(InvalidSubscription(made.error.paths));
      }
      if SubscriptionNumberTaken(subscriptions, number) {
        return Failure(DuplicateSubscriptionNumber);
      }
      subscriptions := subscriptions[subId := made.value];
      return Success(made.value);
    }

    /** PUT /api/subscriptions/:id/confirm. The subscription is saved as
        Confirmed, whatever its status was, before the invoice is inserted;
        an insertion refused by the unique index leaves it Confirmed with no
        invoice. `invoiceId` is the id the driver gives the new invoice. */
    method Confirm(id: Id, invoiceId: Id, invoiceNumber: string, now: Timestamp)
      returns (r: Result<Invoice, BillingError>)
      requires Valid()
      requires invoiceId !in invoices
      modifies this
      ensures Valid()
      ensures payments == old(payments)
      ensures id !in old(subscriptions) ==>
        r == Failure(SubscriptionNotFound)
        && subscriptions == old(subscriptions) && invoices == old(invoices)
      ensures id in old(subscriptions) ==>
        subscriptions == old(subscriptions)[id := old(subscriptions)[id].(status := SubscriptionStatus.Confirmed)]
      ensures id in old(subscriptions) && NumberTaken(old(invoices), Some(invoiceNumber)) ==>
        r == Failure(DuplicateInvoiceNumber) && invoices == old(invoices)
      ensures id in old(subscriptions) && !NumberTaken(old(invoices), Some(invoiceNumber)) ==>
        && r == Success(InvoiceFor(subscriptions[id], id, invoiceNumber, now))
        && invoices == old(invoices)[invoiceId := r.value]
    {
      if id !in subscriptions {
        return Failure(SubscriptionNotFound);
      }
      var sub := subscriptions[id].(status := SubscriptionStatus.Confirmed);
      subscriptions := subscriptions[id := sub];

      var invoice := InvoiceFor(sub, id, invoiceNumber, now);
      if NumberTaken(invoices, invoice.invoiceNumber) {
        return Failure(DuplicateInvoiceNumber);
      }
      invoices := invoices[invoiceId := invoice];
      return Success(invoice);
    }

    /** POST /api/payments. A payment that passes the schema is always
        appended. When its invoice exists and the amount covers the total,
        the invoice becomes Paid and its linked subscription Active; partial
        payments are not accumulated. The payment is built by the schema as
        written, so a payment without a date is dated `loadedAt`. */
    method RecordPayment(input: PaymentInput, now: Timestamp) returns (r: Result<Payment, BillingError>)
      requires Valid()
      modifies this
      ensures Valid()
      ensures NewPaymentAsWritten(input, loadedAt, now).Failure? ==>
        && r == Failure(InvalidPayment(PaymentProblems(input)))
        && payments == old(payments) && invoices == old(invoices)
        && subscriptions == old(subscriptions)
      ensures NewPaymentAsWritten(input, loadedAt, now).Success? ==>
        && r == Success(NewPaymentAsWritten(input, loadedAt, now).value)
        && payments == old(payments) + [r.value]
      ensures r.Success? && r.value.invoice in old(invoices) && Covers(r.value, old(invoices)[r.value.invoice]) ==>
        var inv := old(invoices)[r.value.invoice];
        && invoices == old(invoices)[r.value.invoice := inv.(status := Paid)]
        && subscriptions == ActivateLinked(old(subscriptions), inv.subscription)
      ensures r.Success? && !(r.value.invoice in old(invoices) && Covers(r.value, old(invoices)[r.value.invoice])) ==>
        invoices == old(invoices) && subscriptions == old(subscriptions)
    {
      var made := NewPaymentAsWritten(input, loadedAt, now);
      if made.Failure? {
        return Failure(InvalidPayment(made.error.paths));
      }
      var payment := made.value;
      payments := payments + [payment];

      if payment.invoice in invoices {
        var invoice := invoices[payment.invoice];
        if invoice.total <= payment.amount {
          StatusChangeKeepsNumbers(invoices, payment.invoice, Paid);
          invoices := invoices[payment.invoice := invoice.(status := Paid)];
          if invoice.subscription.Some? {
            var subId := invoice.subscription.value;
            if subId in subscriptions && subscriptions[subId].status != SubscriptionStatus.Active {
              subscriptions := subscriptions[subId := subscriptions[subId].(status := SubscriptionStatus.Active)];
            }
          }
        }
      }
      return Success(payment);
    }
  }

  /** A payment posted with method "Credit Card" (what the invoice screen
      sends) fails the Payment schema, so nothing is recorded. */
  lemma CreditCardRejected(input: PaymentInput, loadedAt: Timestamp, now: Timestamp)
    requires input.paymentMethod == Some("Credit Card")
    ensures NewPaymentAsWritten(input, loadedAt, now).Failure?
    ensures "method" in NewPaymentAsWritten(input, loadedAt, now).error.paths
    ensures NewPayment(input, now).Failure? && "method" in NewPayment(input, now).error.paths
  {
  }
}
