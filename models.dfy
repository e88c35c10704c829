/** The Mongoose schemas of the server (the files under server/models): one record per
    document kind, one datatype per string enum, and for each kind the
    document construction `new Model(body)` performs before `save()`:
    required paths are checked, enum strings are checked, and defaults are
    filled in for absent paths. Failures are collected per path, as in a
    Mongoose ValidationError. */
module Models {
  import opened Wrappers

  /** A document id (an ObjectId). */
  type Id = nat
  /** Milliseconds since the epoch, the unit of `Date.now()`. */
  type Timestamp = int

  // ---------------------------------------------------------------------
  // Enums. Each has its stored string and a parser that accepts exactly
  // the strings of the schema's `enum` list.

  datatype SubscriptionStatus = Draft | Quotation | Confirmed | Active | Closed {
    function Name(): string {
      match this
      case Draft => "Draft"
      case Quotation => "Quotation"
      case Confirmed => "Confirmed"
      case Active => "Active"
      case Closed => "Closed"
    }
  }

  function ParseSubscriptionStatus(s: string): (r: Option<SubscriptionStatus>)
    ensures forall st: SubscriptionStatus :: r == Some(st) <==> st.Name() == s
  {
    if s == "Draft" then Some(SubscriptionStatus.Draft)
    else if s == "Quotation" then Some(Quotation)
    else if s == "Confirmed" then Some(SubscriptionStatus.Confirmed)
    else if s == "Active" then Some(SubscriptionStatus.Active)
    else if s == "Closed" then Some(Closed)
    else None
  }

  datatype InvoiceStatus = Draft | Confirmed | Paid | Cancelled {
    function Name(): string {
      match this
      case Draft => "Draft"
      case Confirmed => "Confirmed"
      case Paid => "Paid"
      case Cancelled => "Cancelled"
    }
  }

  function ParseInvoiceStatus(s: string): (r: Option<InvoiceStatus>)
    ensures forall st: InvoiceStatus :: r == Some(st) <==> st.Name() == s
  {
    if s == "Draft" then Some(InvoiceStatus.Draft)
    else if s == "Confirmed" then Some(InvoiceStatus.Confirmed)
    else if s == "Paid" then Some(Paid)
    else if s == "Cancelled" then Some(InvoiceStatus.Cancelled)
    else None
  }

  datatype PaymentMethod = Cash | Card | UPI | NetBanking {
    function Name(): string {
      match this
      case Cash => "Cash"
      case Card => "Card"
      case UPI => "UPI"
      case NetBanking => "NetBanking"
    }
  }

  function ParsePaymentMethod(s: string): (r: Option<PaymentMethod>)
    ensures forall m: PaymentMethod :: r == Some(m) <==> m.Name() == s
  {
    if s == "Cash" then Some(Cash)
    else if s == "Card" then Some(Card)
    else if s == "UPI" then Some(UPI)
    else if s == "NetBanking" then Some(NetBanking)
    else None
  }

  datatype DiscountType = Fixed | Percentage {
    function Name(): string {
      match this
      case Fixed => "Fixed"
      case Percentage => "Percentage"
    }
  }

  function ParseDiscountType(s: string): (r: Option<DiscountType>)
    ensures forall t: DiscountType :: r == Some(t) <==> t.Name() == s
  {
    if s == "Fixed" then Some(Fixed)
    else if s == "Percentage" then Some(Percentage)
    else None
  }

  datatype BillingInterval = Monthly | Quarterly | HalfYearly | Yearly {
    function Name(): string {
      match this
      case Monthly => "Monthly"
      case Quarterly => "Quarterly"
      case HalfYearly => "Half-Yearly"
      case Yearly => "Yearly"
    }
  }

  function ParseBillingInterval(s: string): (r: Option<BillingInterval>)
    ensures forall i: BillingInterval :: r == Some(i) <==> i.Name() == s
  {
    if s == "Monthly" then Some(Monthly)
    else if s == "Quarterly" then Some(Quarterly)
    else if s == "Half-Yearly" then Some(HalfYearly)
    else if s == "Yearly" then Some(Yearly)
    else None
  }

  /** A discount's `applicablePlanInterval`: one of the four intervals, or
      the extra value "All". */
  datatype IntervalScope = ForInterval(interval: BillingInterval) | AllIntervals {
    function Name(): string {
      match this
      case ForInterval(i) => i.Name()
      case AllIntervals => "All"
    }
  }

  function ParseIntervalScope(s: string): (r: Option<IntervalScope>)
    ensures forall sc: IntervalScope :: r == Some(sc) <==> sc.Name() == s
  {
    if s == "All" then Some(AllIntervals)
    else match ParseBillingInterval(s)
      case Some(i) => Some(ForInterval(i))
      case None => None
  }

  datatype PlanType = DurationBased | PackageBased {
    function Name(): string {
      match this
      case DurationBased => "Duration-based"
      case PackageBased => "Package-based"
    }
  }

  function ParsePlanType(s: string): (r: Option<PlanType>)
    ensures forall t: PlanType :: r == Some(t) <==> t.Name() == s
  {
    if s == "Duration-based" then Some(DurationBased)
    else if s == "Package-based" then Some(PackageBased)
    else None
  }

  datatype PlanStatus = Active | Inactive {
    function Name(): string {
      match this
      case Active => "Active"
      case Inactive => "Inactive"
    }
  }

  function ParsePlanStatus(s: string): (r: Option<PlanStatus>)
    ensures forall st: PlanStatus :: r == Some(st) <==> st.Name() == s
  {
    if s == "Active" then Some(PlanStatus.Active)
    else if s == "Inactive" then Some(Inactive)
    else None
  }

  datatype AppointmentStatus = Pending | Scheduled | Completed | Cancelled {
    function Name(): string {
      match this
      case Pending => "Pending"
      case Scheduled => "Scheduled"
      case Completed => "Completed"
      case Cancelled => "Cancelled"
    }
  }

  function ParseAppointmentStatus(s: string): (r: Option<AppointmentStatus>)
    ensures forall st: AppointmentStatus :: r == Some(st) <==> st.Name() == s
  {
    if s == "Pending" then Some(Pending)
    else if s == "Scheduled" then Some(Scheduled)
    else if s == "Completed" then Some(Completed)
    else if s == "Cancelled" then Some(AppointmentStatus.Cancelled)
    else None
  }

  datatype Role = Admin | Internal | Customer | Manager | Receptionist | Stylist | Staff {
    function Name(): string {
      match this
      case Admin => "Admin"
      case Internal => "Internal"
      case Customer => "Customer"
      case Manager => "Manager"
      case Receptionist => "Receptionist"
      case Stylist => "Stylist"
      case Staff => "Staff"
    }
  }

  function ParseRole(s: string): (r: Option<Role>)
    ensures forall ro: Role :: r == Some(ro) <==> ro.Name() == s
  {
    if s == "Admin" then Some(Admin)
    else if s == "Internal" then Some(Internal)
    else if s == "Customer" then Some(Customer)
    else if s == "Manager" then Some(Manager)
    else if s == "Receptionist" then Some(Receptionist)
    else if s == "Stylist" then Some(Stylist)
    else if s == "Staff" then Some(Staff)
    else None
  }

  // ---------------------------------------------------------------------
  // Path checks shared by the schemas.

  /** The failed paths of a document, as a Mongoose ValidationError lists them. */
  datatype ValidationError = ValidationError(paths: set<string>)

  /** `required: true` on a String path: absent and "" both fail. */
  predicate GivenText(x: Option<string>) {
    x.Some? && x.value != ""
  }

  /** An `enum` path accepts an absent value or one of the listed strings. */
  predicate EnumOk<E>(x: Option<string>, parse: string -> Option<E>) {
    x.None? || parse(x.value).Some?
  }

  /** The enum value stored for a checked path: the parsed string, or the
      schema default when the path is absent. */
  function EnumOr<E>(x: Option<string>, parse: string -> Option<E>, default: E): E
    requires EnumOk(x, parse)
  {
    if x.None? then default else parse(x.value).value
  }

  /** `path` when `ok` fails, otherwise nothing. */
  function Check(ok: bool, path: string): set<string> {
    if ok then {} else {path}
  }

  // ---------------------------------------------------------------------
  // Subscription (server/models/Subscription.js)

  datatype SubscriptionItem = SubscriptionItem(
    product: Option<Id>,
    name: Option<string>,
    quantity: int,
    unitPrice: Option<int>,
    taxes: seq<Id>,
    amount: Option<int>)

  datatype SubscriptionItemInput = SubscriptionItemInput(
    product: Option<Id>,
    name: Option<string>,
    quantity: Option<int>,
    unitPrice: Option<int>,
    taxes: seq<Id>,
    amount: Option<int>)

  datatype Subscription = Subscription(
    subscriptionNumber: Option<string>,
    customer: Id,
    plan: Option<Id>,
    startDate: Timestamp,
    endDate: Option<Timestamp>,
    paymentTerms: string,
    status: SubscriptionStatus,
    items: seq<SubscriptionItem>,
    subtotal: Option<int>,
    taxTotal: int,
    discountTotal: int,
    planAmount: int,
    serviceCost: int,
    remainingBalance: int,
    totalAmount: int,
    notes: Option<string>)

  datatype SubscriptionInput = SubscriptionInput(
    subscriptionNumber: Option<string>,
    customer: Option<Id>,
    plan: Option<Id>,
    startDate: Option<Timestamp>,
    endDate: Option<Timestamp>,
    paymentTerms: Option<string>,
    status: Option<string>,
    items: seq<SubscriptionItemInput>,
    subtotal: Option<int>,
    taxTotal: Option<int>,
    discountTotal: Option<int>,
    planAmount: Option<int>,
    serviceCost: Option<int>,
    remainingBalance: Option<int>,
    totalAmount: Option<int>,
    notes: Option<string>)

  function NewSubscriptionItem(input: SubscriptionItemInput): (r: SubscriptionItem)
    ensures input.quantity.None? ==> r.quantity == 1
    ensures input.quantity.Some? ==> r.quantity == input.quantity.value
    ensures r.name == input.name && r.unitPrice == input.unitPrice && r.amount == input.amount
    ensures r.product == input.product && r.taxes == input.taxes
  {
    SubscriptionItem(input.product, input.name, input.quantity.GetOr(1),
                     input.unitPrice, input.taxes, input.amount)
  }

  /** `new Subscription(body)` validated at `now`. */
  function NewSubscription(input: SubscriptionInput, now: Timestamp): (r: Result<Subscription, ValidationError>)
    ensures r.Success? <==>
      input.customer.Some? && input.totalAmount.Some? && EnumOk(input.status, ParseSubscriptionStatus)
    ensures r.Failure? ==>
      && ("customer" in r.error.paths <==> input.customer.None?)
      && ("totalAmount" in r.error.paths <==> input.totalAmount.None?)
      && ("status" in r.error.paths <==> !EnumOk(input.status, ParseSubscriptionStatus))
    ensures r.Success? ==>
      && r.value.customer == input.customer.value
      && r.value.totalAmount == input.totalAmount.value
      && r.value.plan == input.plan
      && (input.status.None? ==> r.value.status == SubscriptionStatus.Draft)
      && (input.status.Some? ==> r.value.status.Name() == input.status.value)
      && (input.startDate.None? ==> r.value.startDate == now)
      && (input.paymentTerms.None? ==> r.value.paymentTerms == "Immediate")
      && (input.taxTotal.None? ==> r.value.taxTotal == 0)
      && (input.discountTotal.None? ==> r.value.discountTotal == 0)
      && (input.planAmount.None? ==> r.value.planAmount == 0)
      && (input.serviceCost.None? ==> r.value.serviceCost == 0)
      && (input.remainingBalance.None? ==> r.value.remainingBalance == 0)
      && (input.startDate.Some? ==> r.value.startDate == input.startDate.value)
      && (input.paymentTerms.Some? ==> r.value.paymentTerms == input.paymentTerms.value)
      && (input.taxTotal.Some? ==> r.value.taxTotal == input.taxTotal.value)
      && (input.discountTotal.Some? ==> r.value.discountTotal == input.discountTotal.value)
      && (input.planAmount.Some? ==> r.value.planAmount == input.planAmount.value)
      && (input.serviceCost.Some? ==> r.value.serviceCost == input.serviceCost.value)
      && (input.remainingBalance.Some? ==> r.value.remainingBalance == input.remainingBalance.value)
      && r.value.subscriptionNumber == input.subscriptionNumber
      && r.value.endDate == input.endDate
      && r.value.notes == input.notes
      && r.value.subtotal == input.subtotal
      && |r.value.items| == |input.items|
      && (forall k :: 0 <= k < |input.items| ==>
            r.value.items[k] == NewSubscriptionItem(input.items[k]))
  {
    var problems :=
      Check(input.customer.Some?, "customer")
      + Check(input.totalAmount.Some?, "totalAmount")
      + Check(EnumOk(input.status, ParseSubscriptionStatus), "status");
    if problems != {} then Failure(ValidationError(problems))
    else Success(Subscription(
      input.subscriptionNumber,
      input.customer.value,
      input.plan,
      input.startDate.GetOr(now),
      input.endDate,
      input.paymentTerms.GetOr("Immediate"),
      EnumOr(input.status, ParseSubscriptionStatus, SubscriptionStatus.Draft),
      seq(|input.items|, k requires 0 <= k < |input.items| => NewSubscriptionItem(input.items[k])),
      input.subtotal,
      input.taxTotal.GetOr(0),
      input.discountTotal.GetOr(0),
      input.planAmount.GetOr(0),
      input.serviceCost.GetOr(0),
      input.remainingBalance.GetOr(0),
      input.totalAmount.value,
      input.notes))
  }

  // ---------------------------------------------------------------------
  // Invoice (server/models/Invoice.js)

  datatype InvoiceItem = InvoiceItem(
    description: Option<string>,
    quantity: Option<int>,
    unitPrice: Option<int>,
    amount: Option<int>)

  datatype Invoice = Invoice(
    invoiceNumber: Option<string>,
    subscription: Option<Id>,
    customer: Id,
    items: seq<InvoiceItem>,
    subtotal: Option<int>,
    taxTotal: Option<int>,
    total: int,
    status: InvoiceStatus,
    dueDate: Option<Timestamp>,
    notes: Option<string>)

  datatype InvoiceInput = InvoiceInput(
    invoiceNumber: Option<string>,
    subscription: Option<Id>,
    customer: Option<Id>,
    items: seq<InvoiceItem>,
    subtotal: Option<int>,
    taxTotal: Option<int>,
    total: Option<int>,
    status: Option<string>,
    dueDate: Option<Timestamp>,
    notes: Option<string>)

  /** `new Invoice(body)`. The uniqueness of `invoiceNumber` is an index of
      the collection, checked by the store on insertion. */
  function NewInvoice(input: InvoiceInput): (r: Result<Invoice, ValidationError>)
    ensures r.Success? <==>
      input.customer.Some? && input.total.Some? && EnumOk(input.status, ParseInvoiceStatus)
    ensures r.Failure? ==>
      && ("customer" in r.error.paths <==> input.customer.None?)
      && ("total" in r.error.paths <==> input.total.None?)
      && ("status" in r.error.paths <==> !EnumOk(input.status, ParseInvoiceStatus))
    ensures r.Success? ==>
      && r.value.customer == input.customer.value
      && r.value.total == input.total.value
      && (input.status.None? ==> r.value.status == InvoiceStatus.Draft)
      && (input.status.Some? ==> r.value.status.Name() == input.status.value)
      && r.value.invoiceNumber == input.invoiceNumber
      && r.value.subscription == input.subscription
      && r.value.items == input.items
      && r.value.subtotal == input.subtotal
      && r.value.taxTotal == input.taxTotal
      && r.value.dueDate == input.dueDate
      && r.value.notes == input.notes
  {
    var problems :=
      Check(input.customer.Some?, "customer")
      + Check(input.total.Some?, "total")
      + Check(EnumOk(input.status, ParseInvoiceStatus), "status");
    if problems != {} then Failure(ValidationError(problems))
    else Success(Invoice(
      input.invoiceNumber,
      input.subscription,
      input.customer.value,
      input.items,
      input.subtotal,
      input.taxTotal,
      input.total.value,
      EnumOr(input.status, ParseInvoiceStatus, InvoiceStatus.Draft),
      input.dueDate,
      input.notes))
  }

  // ---------------------------------------------------------------------
  // Payment (server/models/Payment.js)

  datatype Payment = Payment(
    invoice: Id,
    customer: Option<Id>,
    amount: int,
    paymentMethod: PaymentMethod,
    date: Timestamp,
    createdAt: Timestamp)

  datatype PaymentInput = PaymentInput(
    invoice: Option<Id>,
    customer: Option<Id>,
    amount: Option<int>,
    paymentMethod: Option<string>,
    date: Option<Timestamp>,
    createdAt: Option<Timestamp>)

  /** The paths that make `new Payment(body)` fail. */
  function PaymentProblems(input: PaymentInput): (r: set<string>)
    ensures "invoice" in r <==> input.invoice.None?
    ensures "amount" in r <==> input.amount.None?
    ensures "method" in r <==> !EnumOk(input.paymentMethod, ParsePaymentMethod)
    ensures r <= {"invoice", "amount", "method"}
  {
    Check(input.invoice.Some?, "invoice")
    + Check(input.amount.Some?, "amount")
    + Check(EnumOk(input.paymentMethod, ParsePaymentMethod), "method")
  }

  /** `new Payment(body)` exactly as the schema is written: the default of
      `date` is the value `Date.now()` had when the schema was loaded
      (`loadedAt`), while `createdAt` defaults to the time of creation. */
  function NewPaymentAsWritten(input: PaymentInput, loadedAt: Timestamp, now: Timestamp): (r: Result<Payment, ValidationError>)
    ensures r.Success? <==> PaymentProblems(input) == {}
    ensures r.Failure? ==> r.error.paths == PaymentProblems(input)
    ensures r.Success? ==>
      && r.value.invoice == input.invoice.value
      && r.value.amount == input.amount.value
      && r.value.customer == input.customer
      && (input.paymentMethod.None? ==> r.value.paymentMethod == Cash)
      && (input.paymentMethod.Some? ==> r.value.paymentMethod.Name() == input.paymentMethod.value)
      && (input.date.None? ==> r.value.date == loadedAt)
      && (input.createdAt.None? ==> r.value.createdAt == now)
  {
    var problems := PaymentProblems(input);
    if problems != {} then Failure(ValidationError(problems))
    else Success(Payment(
      input.invoice.value,
      input.customer,
      input.amount.value,
      EnumOr(input.paymentMethod, ParsePaymentMethod, Cash),
      input.date.GetOr(loadedAt),
      input.createdAt.GetOr(now)))
  }

  /** Two payments created at different times without a `date` get the same
      `date` under the schema as written. */
  lemma PaymentDateFrozenAtLoad(input: PaymentInput, loadedAt: Timestamp, t1: Timestamp, t2: Timestamp)
    requires PaymentProblems(input) == {} && input.date.None?
    ensures NewPaymentAsWritten(input, loadedAt, t1).value.date
         == NewPaymentAsWritten(input, loadedAt, t2).value.date
    ensures input.createdAt.None? && t1 != t2 ==>
      NewPaymentAsWritten(input, loadedAt, t1).value.createdAt
      != NewPaymentAsWritten(input, loadedAt, t2).value.createdAt
  {
  }

  /** `new Payment(body)` with the evidently intended default: `date` is the
      time of creation, like `createdAt`. */
  function NewPayment(input: PaymentInput, now: Timestamp): (r: Result<Payment, ValidationError>)
    ensures r.Success? <==> PaymentProblems(input) == {}
    ensures r.Failure? ==> r.error.paths == PaymentProblems(input)
    ensures r.Success? ==>
      && r.value.invoice == input.invoice.value
      && r.value.amount == input.amount.value
      && r.value.customer == input.customer
      && (input.paymentMethod.None? ==> r.value.paymentMethod == Cash)
      && (input.paymentMethod.Some? ==> r.value.paymentMethod.Name() == input.paymentMethod.value)
      && (input.date.None? ==> r.value.date == now)
      && (input.createdAt.None? ==> r.value.createdAt == now)
      && (input.date.None? && input.createdAt.None? ==> r.value.date == r.value.createdAt)
  {
    var problems := PaymentProblems(input);
    if problems != {} then Failure(ValidationError(problems))
    else Success(Payment(
      input.invoice.value,
      input.customer,
      input.amount.value,
      EnumOr(input.paymentMethod, ParsePaymentMethod, Cash),
      input.date.GetOr(now),
      input.createdAt.GetOr(now)))
  }

  // ---------------------------------------------------------------------
  // Discount (server/models/Discount.js)

  datatype Discount = Discount(
    name: string,
    discountType: DiscountType,
    value: int,
    applicablePlanInterval: IntervalScope,
    plan: Option<Id>,
    customer: Option<Id>,
    applicableProducts: seq<Id>,
    startDate: Option<Timestamp>,
    endDate: Option<Timestamp>,
    isActive: bool)

  datatype DiscountInput = DiscountInput(
    name: Option<string>,
    discountType: Option<string>,
    value: Option<int>,
    applicablePlanInterval: Option<string>,
    plan: Option<Id>,
    customer: Option<Id>,
    applicableProducts: seq<Id>,
    startDate: Option<Timestamp>,
    endDate: Option<Timestamp>,
    isActive: Option<bool>)

  function NewDiscount(input: DiscountInput): (r: Result<Discount, ValidationError>)
    ensures r.Success? <==>
      && GivenText(input.name) && input.value.Some?
      && EnumOk(input.discountType, ParseDiscountType)
      && EnumOk(input.applicablePlanInterval, ParseIntervalScope)
    ensures r.Failure? ==>
      && ("name" in r.error.paths <==> !GivenText(input.name))
      && ("value" in r.error.paths <==> input.value.None?)
      && ("type" in r.error.paths <==> !EnumOk(input.discountType, ParseDiscountType))
      && ("applicablePlanInterval" in r.error.paths <==>
            !EnumOk(input.applicablePlanInterval, ParseIntervalScope))
    ensures r.Success? ==>
      && r.value.name == input.name.value
      && r.value.value == input.value.value
      && (input.discountType.None? ==> r.value.discountType == Percentage)
      && (input.discountType.Some? ==> r.value.discountType.Name() == input.discountType.value)
      && (input.applicablePlanInterval.None? ==> r.value.applicablePlanInterval == AllIntervals)
      && (input.applicablePlanInterval.Some? ==>
            r.value.applicablePlanInterval.Name() == input.applicablePlanInterval.value)
      && r.value.plan == input.plan
      && r.value.customer == input.customer
      && r.value.applicableProducts == input.applicableProducts
      && r.value.startDate == input.startDate
      && r.value.endDate == input.endDate
      && (input.isActive.None? ==> r.value.isActive)
      && (input.isActive.Some? ==> r.value.isActive == input.isActive.value)
  {
    var problems :=
      Check(GivenText(input.name), "name")
      + Check(input.value.Some?, "value")
      + Check(EnumOk(input.discountType, ParseDiscountType), "type")
      + Check(EnumOk(input.applicablePlanInterval, ParseIntervalScope), "applicablePlanInterval");
    if problems != {} then Failure(ValidationError(problems))
    else Success(Discount(
      input.name.value,
      EnumOr(input.discountType, ParseDiscountType, Percentage),
      input.value.value,
      EnumOr(input.applicablePlanInterval, ParseIntervalScope, AllIntervals),
      input.plan,
      input.customer,
      input.applicableProducts,
      input.startDate,
      input.endDate,
      input.isActive.GetOr(true)))
  }

  // ---------------------------------------------------------------------
  // Plan (server/models/Plan.js)

  datatype PlanOptions = PlanOptions(autoClose: bool, closable: bool, pausable: bool, renewable: bool)

  datatype PlanOptionsInput = PlanOptionsInput(
    autoClose: Option<bool>, closable: Option<bool>, pausable: Option<bool>, renewable: Option<bool>)

  datatype Plan = Plan(
    name: string,
    planType: PlanType,
    price: int,
    billingInterval: BillingInterval,
    minQuantity: int,
    startDate: Option<Timestamp>,
    endDate: Option<Timestamp>,
    options: PlanOptions,
    servicesIncluded: seq<Id>,
    status: PlanStatus)

  datatype PlanInput = PlanInput(
    name: Option<string>,
    planType: Option<string>,
    price: Option<int>,
    billingInterval: Option<string>,
    minQuantity: Option<int>,
    startDate: Option<Timestamp>,
    endDate: Option<Timestamp>,
    options: PlanOptionsInput,
    servicesIncluded: seq<Id>,
    status: Option<string>)

  function NewPlanOptions(input: PlanOptionsInput): (r: PlanOptions)
    ensures input.autoClose.None? ==> !r.autoClose
    ensures input.closable.None? ==> r.closable
    ensures input.pausable.None? ==> r.pausable
    ensures input.renewable.None? ==> r.renewable
    ensures input.autoClose.Some? ==> r.autoClose == input.autoClose.value
    ensures input.closable.Some? ==> r.closable == input.closable.value
    ensures input.pausable.Some? ==> r.pausable == input.pausable.value
    ensures input.renewable.Some? ==> r.renewable == input.renewable.value
  {
    PlanOptions(input.autoClose.GetOr(false), input.closable.GetOr(true),
                input.pausable.GetOr(true), input.renewable.GetOr(true))
  }

  function NewPlan(input: PlanInput): (r: Result<Plan, ValidationError>)
    ensures r.Success? <==>
      && GivenText(input.name) && input.price.Some?
      && EnumOk(input.planType, ParsePlanType)
      && EnumOk(input.billingInterval, ParseBillingInterval)
      && EnumOk(input.status, ParsePlanStatus)
    ensures r.Failure? ==>
      && ("name" in r.error.paths <==> !GivenText(input.name))
      && ("price" in r.error.paths <==> input.price.None?)
      && ("planType" in r.error.paths <==> !EnumOk(input.planType, ParsePlanType))
      && ("billingInterval" in r.error.paths <==> !EnumOk(input.billingInterval, ParseBillingInterval))
      && ("status" in r.error.paths <==> !EnumOk(input.status, ParsePlanStatus))
    ensures r.Success? ==>
      && r.value.name == input.name.value
      && r.value.price == input.price.value
      && (input.planType.None? ==> r.value.planType == DurationBased)
      && (input.planType.Some? ==> r.value.planType.Name() == input.planType.value)
      && (input.billingInterval.None? ==> r.value.billingInterval == Monthly)
      && (input.billingInterval.Some? ==> r.value.billingInterval.Name() == input.billingInterval.value)
      && (input.minQuantity.None? ==> r.value.minQuantity == 1)
      && (input.minQuantity.Some? ==> r.value.minQuantity == input.minQuantity.value)
      && (input.status.None? ==> r.value.status == PlanStatus.Active)
      && (input.status.Some? ==> r.value.status.Name() == input.status.value)
      && r.value.startDate == input.startDate
      && r.value.endDate == input.endDate
      && r.value.options == NewPlanOptions(input.options)
      && r.value.servicesIncluded == input.servicesIncluded
  {
    var problems :=
      Check(GivenText(input.name), "name")
      + Check(input.price.Some?, "price")
      + Check(EnumOk(input.planType, ParsePlanType), "planType")
      + Check(EnumOk(input.billingInterval, ParseBillingInterval), "billingInterval")
      + Check(EnumOk(input.status, ParsePlanStatus), "status");
    if problems != {} then Failure(ValidationError(problems))
    else Success(Plan(
      input.name.value,
      EnumOr(input.planType, ParsePlanType, DurationBased),
      input.price.value,
      EnumOr(input.billingInterval, ParseBillingInterval, Monthly),
      input.minQuantity.GetOr(1),
      input.startDate,
      input.endDate,
      NewPlanOptions(input.options),
      input.servicesIncluded,
      EnumOr(input.status, ParsePlanStatus, PlanStatus.Active)))
  }

  // ---------------------------------------------------------------------
  // Appointment (server/models/Appointment.js)

  datatype Appointment = Appointment(
    customer: Id,
    service: Id,
    stylist: Option<Id>,
    date: Timestamp,
    time: string,
    status: AppointmentStatus,
    notes: Option<string>,
    price: Option<int>)

  datatype AppointmentInput = AppointmentInput(
    customer: Option<Id>,
    service: Option<Id>,
    stylist: Option<Id>,
    date: Option<Timestamp>,
    time: Option<string>,
    status: Option<string>,
    notes: Option<string>,
    price: Option<int>)

  function NewAppointment(input: AppointmentInput): (r: Result<Appointment, ValidationError>)
    ensures r.Success? <==>
      && input.customer.Some? && input.service.Some?
      && input.date.Some? && GivenText(input.time)
      && EnumOk(input.status, ParseAppointmentStatus)
    ensures r.Failure? ==>
      && ("customer" in r.error.paths <==> input.customer.None?)
      && ("service" in r.error.paths <==> input.service.None?)
      && ("date" in r.error.paths <==> input.date.None?)
      && ("time" in r.error.paths <==> !GivenText(input.time))
      && ("status" in r.error.paths <==> !EnumOk(input.status, ParseAppointmentStatus))
    ensures r.Success? ==>
      && r.value.customer == input.customer.value
      && r.value.service == input.service.value
      && r.value.stylist == input.stylist
      && r.value.date == input.date.value
      && r.value.time == input.time.value
      && (input.status.None? ==> r.value.status == Pending)
      && (input.status.Some? ==> r.value.status.Name() == input.status.value)
      && r.value.notes == input.notes
      && r.value.price == input.price
  {
    var problems :=
      Check(input.customer.Some?, "customer")
      + Check(input.service.Some?, "service")
      + Check(input.date.Some?, "date")
      + Check(GivenText(input.time), "time")
      + Check(EnumOk(input.status, ParseAppointmentStatus), "status");
    if problems != {} then Failure(ValidationError(problems))
    else Success(Appointment(
      input.customer.value,
      input.service.value,
      input.stylist,
      input.date.value,
      input.time.value,
      EnumOr(input.status, ParseAppointmentStatus, Pending),
      input.notes,
      input.price))
  }

  // ---------------------------------------------------------------------
  // User (server/models/User.js)

  datatype User = User(
    name: string,
    email: string,
    phone: Option<string>,
    password: string,
    role: Role,
    otp: Option<string>,
    otpExpires: Option<Timestamp>,
    resetPasswordToken: Option<string>,
    resetPasswordExpires: Option<Timestamp>)

  datatype UserInput = UserInput(
    name: Option<string>,
    email: Option<string>,
    phone: Option<string>,
    password: Option<string>,
    role: Option<string>)

  /** `new User(body)`; the one-time-password and reset-token paths start absent. */
  function NewUser(input: UserInput): (r: Result<User, ValidationError>)
    ensures r.Success? <==>
      && GivenText(input.name) && GivenText(input.email) && GivenText(input.password)
      && EnumOk(input.role, ParseRole)
    ensures r.Failure? ==>
      && ("name" in r.error.paths <==> !GivenText(input.name))
      && ("email" in r.error.paths <==> !GivenText(input.email))
      && ("password" in r.error.paths <==> !GivenText(input.password))
      && ("role" in r.error.paths <==> !EnumOk(input.role, ParseRole))
    ensures r.Success? ==>
      && r.value.name == input.name.value
      && r.value.email == input.email.value
      && r.value.password == input.password.value
      && r.value.phone == input.phone
      && (input.role.None? ==> r.value.role == Customer)
      && (input.role.Some? ==> r.value.role.Name() == input.role.value)
      && r.value.otp.None? && r.value.otpExpires.None?
      && r.value.resetPasswordToken.None? && r.value.resetPasswordExpires.None?
  {
    var problems :=
      Check(GivenText(input.name), "name")
      + Check(GivenText(input.email), "email")
      + Check(GivenText(input.password), "password")
      + Check(EnumOk(input.role, ParseRole), "role");
    if problems != {} then Failure(ValidationError(problems))
    else Success(User(
      input.name.value,
      input.email.value,
      input.phone,
      input.password.value,
      EnumOr(input.role, ParseRole, Customer),
      None, None, None, None))
  }
}
