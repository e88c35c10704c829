# Salon subscription app: a verified model of its core

This project models, in Dafny, the parts of a salon management web app
(an Express/MongoDB server and a React client) that carry rules:

- **Billing lifecycle** (`billing.dfy`). Creating a subscription validates
  it against its schema and inserts it. Confirming a subscription sets it
  to Confirmed and issues a Draft invoice copied from it. Recording a
  payment appends it; a payment that covers an invoice's total marks the
  invoice Paid and activates the linked subscription. The store is a class
  holding maps of subscriptions and invoices and a sequence of payments.
- **Reports** (`reports.dfy`). The admin revenue and a customer's total
  paid add up payment amounts.
- **Accounts and password reset by one-time password** (`accounts.dfy`).
  Covers registration, login, and the three timestamp-guarded steps on a
  user record: request an OTP, verify it for a reset token, reset the
  password with the token. The users collection is a class holding a
  sequence, kept in the natural order in which `findOne` meets documents.
- **Document schemas** (`models.dfy`). The seven Mongoose schemas the
  logic reads. Each has its string enums, required paths and defaults,
  and a constructor function that succeeds or lists the failing paths.
- **Plan card pricing** (`pricing.dfy`). Chooses the automatic discount
  rule for a plan, computes the deduction, the flat fallback table and the
  final price clamped at zero. Also covers the plan form's service and
  option toggles.
- **Form validators** (`validators.dfy`). The password rule lists of the
  sign-in, sign-up and reset pages, the email pattern, and the sign-in and
  sign-up forms, whose `validate` fills an error dictionary field by field.
- **Reset page step machine** (`reset_flow.dfy`). Moves phone → otp →
  password on successful server answers and checks the new password
  before sending it.
- **Appointments** (`appointments.dfy`). The status buttons and the
  booking form's payload cleaning.
- **Products** (`products.dfy`). The product form's variant list edits.

Helpers:

- `wrappers.dfy`: Option and Result.
- `collections.dfy`: first match, `indexOf`, `splice(i, 1)`.
- `text.dfy`: the regular-expression character classes and decimal
  printing.

Money is an `int`. The plan card's percentage arithmetic is exact, in
`real`. The clock, randomness and hashing are parameters: `now`, the OTP
`code`, the reset `token`, the bcrypt hash and the bcrypt comparison.
Server answers to the client pages are parameters of their handlers.

Where the system's written specification and the code differ, the model
follows the code:

- Confirm sets the subscription to Confirmed, never Active. Only a covering
  payment makes it Active.
- The generated invoice copies the subtotal, tax total and total. It
  copies no discount total or remaining balance, and adds no
  membership-fee line.
- Confirm grants no loyalty credits and touches no first-time-user flag.
- Subscription creation computes no prices.
- A payment whose invoice does not exist is still recorded, and nothing
  else changes. No error is raised.

## Model

| member | source | states |
|---|---|---|
| Models.ParseSubscriptionStatus | server/models/Subscription.js:10 | accepts exactly the five status strings, each naming its own status |
| Models.ParseInvoiceStatus | server/models/Invoice.js:16 | accepts exactly Draft, Confirmed, Paid, Cancelled |
| Models.ParsePaymentMethod | server/models/Payment.js:7 | accepts exactly Cash, Card, UPI, NetBanking |
| Models.ParseDiscountType | server/models/Discount.js:5 | accepts exactly Fixed and Percentage |
| Models.ParseBillingInterval | server/models/Plan.js:7 | accepts exactly Monthly, Quarterly, Half-Yearly, Yearly |
| Models.ParseIntervalScope | server/models/Discount.js:7 | accepts the four intervals and All |
| Models.ParsePlanType | server/models/Plan.js:5 | accepts exactly Duration-based and Package-based |
| Models.ParsePlanStatus | server/models/Plan.js:18 | accepts exactly Active and Inactive |
| Models.ParseAppointmentStatus | server/models/Appointment.js:9 | accepts exactly Pending, Scheduled, Completed, Cancelled |
| Models.ParseRole | server/models/User.js:8 | accepts exactly the seven roles |
| Models.NewSubscriptionItem | server/models/Subscription.js:13-20 | quantity defaults to 1; the other item fields are copied |
| Models.NewSubscription | server/models/Subscription.js:3-31 | succeeds iff customer and totalAmount are given and the status is in the enum; each failed path is reported; status defaults to Draft, payment terms to Immediate, startDate to now, the five amounts to 0; each given value is stored, and the number, endDate, notes, subtotal and items are copied |
| Models.NewInvoice | server/models/Invoice.js:3-19 | succeeds iff customer and total are given and the status is in the enum; status defaults to Draft; subscription stays optional; number, items, subtotal, taxTotal, dueDate and notes are copied |
| Models.PaymentProblems | server/models/Payment.js:4-7 | a payment fails on a missing invoice, a missing amount, or a method outside the enum, and on nothing else |
| Models.NewPaymentAsWritten | server/models/Payment.js:3-10 | the schema as written: an absent date becomes the time the schema was loaded |
| Models.PaymentDateFrozenAtLoad | server/models/Payment.js:8-9 | two payments created at different times without a date get the same date, while their createdAt differ |
| Models.NewPayment | server/models/Payment.js:3-10 | succeeds iff PaymentProblems is empty; method defaults to Cash; date and createdAt default to the time of creation |
| Models.NewDiscount | server/models/Discount.js:3-14 | succeeds iff name and value are given and both enums hold; type defaults to Percentage, interval to All, isActive to true; plan and customer stay optional; products and the validity dates are copied |
| Models.NewPlanOptions | server/models/Plan.js:11-16 | autoClose defaults to false; closable, pausable and renewable default to true |
| Models.NewPlan | server/models/Plan.js:3-19 | succeeds iff name and price are given and the three enums hold; interval defaults to Monthly, type to Duration-based, minQuantity to 1, status to Active; a given minQuantity or status is stored, and the dates, options and services are kept |
| Models.NewAppointment | server/models/Appointment.js:3-12 | succeeds iff customer, service, date and time are given and the status is in the enum; status defaults to Pending; stylist stays optional; notes and price are copied |
| Models.NewUser | server/models/User.js:3-15 | succeeds iff name, email and password are given and the role is in the enum; role defaults to Customer; the OTP and reset fields start absent |
| Collections.Find | src/Plans.jsx:146-147 | returns the first index whose element satisfies the query, or none iff no element does |
| Collections.IndexOf | src/Plans.jsx:86 | returns the first position of the element, or none iff it is absent |
| Collections.RemoveAt | src/Products.jsx:47-48 | splice(i, 1): one element shorter, elements before i kept, elements after i shifted down by one; an index past the end changes nothing |
| Collections.RemoveAtMultiset | src/Products.jsx:46-50 | splicing out position i removes exactly that element from the multiset |
| Collections.RemoveLastAppended | src/Products.jsx:39-50 | appending an element and splicing it out again restores the list |
| Text.Decimal | server/index.js:101 | `toString()` of a number writes only digit characters, at least one, and reading them back as a decimal numeral gives the number |
| Text.DecimalLength | server/index.js:101 | a number with k digits is written with k characters |
| Accounts.CleanPhone | server/index.js:93 | keeps exactly the characters that are neither white space nor dashes; a number without them is unchanged |
| Accounts.CleanPhoneConcat | server/index.js:93 | cleaning two pieces and joining them is cleaning the whole, since the replacement is global |
| Accounts.CleanPhoneKeepsOrder | server/index.js:93 | the cleaned number is the kept characters in their original order and with their repetitions, defined independently from the other end |
| Accounts.PhoneMatches | server/index.js:95 | a user matches only with a phone at least as long as the pattern; the empty pattern matches every user who has a phone |
| Accounts.BlankPhoneMatchesAny | server/index.js:93-95 | a number made only of spaces and dashes cleans to the empty pattern, which matches every user with a phone |
| Accounts.CleanPhoneIdempotent | server/index.js:93 | cleaning twice is cleaning once |
| Accounts.OtpHasSixDigits | server/index.js:101 | a code drawn between 100000 and 999999 is stored as six digits |
| Accounts.IssueOtp | server/index.js:103-105 | the stored OTP is accepted exactly when it matches and the check is before now + 5 min; other account fields unchanged |
| Accounts.RedeemOtp | server/index.js:143-147 | after verification no OTP is accepted any more, and the token is accepted exactly until now + 15 min |
| Accounts.ApplyReset | server/index.js:165-168 | the password is replaced and no token is accepted any more; the OTP fields are untouched |
| Accounts.ResetSequence | server/index.js:89-174 | issue, verify within 5 min, reset within 15 min: each step is accepted, and afterwards neither the OTP nor the token is |
| Accounts.RoleOrCustomer | server/index.js:42 | an absent or empty role becomes Customer; any other is kept |
| Accounts.RegistrationRole | server/index.js:42 | a registration without a role, or with role Customer, creates a Customer |
| Accounts.UserStore.constructor | server/index.js:37-58 | the users collection starts empty |
| Accounts.UserStore.Register | server/index.js:37-47 | a taken email is refused and nothing changes; otherwise a schema-valid user is appended, keeping emails unique, and an invalid one changes nothing |
| Accounts.UserStore.Login | server/index.js:49-58 | fails with invalid credentials when the first user with that email is missing or the password does not match; fails on a role given and different; otherwise returns that user |
| Accounts.UserStore.RequestOtp | server/index.js:89-128 | the first user whose phone contains the cleaned number gets IssueOtp and nobody else changes; with no such user, nothing changes |
| Accounts.UserStore.VerifyOtp | server/index.js:131-154 | the first user matching phone, OTP and unexpired time gets RedeemOtp; otherwise it fails and nothing changes |
| Accounts.UserStore.ResetPassword | server/index.js:157-174 | the first user holding the unexpired token gets ApplyReset; otherwise it fails and nothing changes |
| Billing.NumberOr | server/index.js:304-305 | JavaScript `x \|\| fallback`: an absent or zero amount takes the fallback |
| Billing.InvoiceItemFor | server/index.js:298-303 | the description is the item name, or "Product" when the name is missing or empty; quantity, unit price and amount are copied |
| Billing.InvoiceFor | server/index.js:293-309 | the generated invoice passes the Invoice schema, is Draft, totals sub.totalAmount, subtotal is subtotal or else totalAmount, taxTotal copied, one item per subscription item in order, due now + 7 days |
| Billing.ActivateLinked | server/index.js:352-358 | the linked subscription, if it exists, ends Active; every other subscription is unchanged |
| Billing.StatusChangeKeepsNumbers | server/index.js:349-351 | changing an invoice's status keeps invoice numbers unique |
| Billing.BillingStore.constructor | server/models/Payment.js:8 | the store starts empty, holding the time the Payment schema was loaded |
| Billing.BillingStore.CreateSubscription | server/index.js:269-278 | the body with the generated number is validated by the Subscription schema; an invalid body fails with its paths and a number already held fails, both with nothing changed; otherwise the new subscription, carrying that number, is inserted and nothing else changes |
| Billing.BillingStore.Confirm | server/index.js:285-314 | unknown id: fails with nothing changed; otherwise the subscription becomes Confirmed whatever it was, then the invoice is inserted unless its number is taken; payments never change; numbers stay unique |
| Billing.BillingStore.RecordPayment | server/index.js:340-365 | an invalid payment changes nothing; a valid one is always appended, dated as the schema as written dates it; the invoice becomes Paid and the linked subscription Active exactly when the invoice exists and total <= amount; otherwise invoices and subscriptions are unchanged |
| Reports.PaymentsOf | server/index.js:375 | keeps exactly the payments of that customer, each as many times as it occurs |
| Reports.TotalPaid | server/index.js:376 | the left fold of the amounts; non-negative when every amount is |
| Reports.PaymentsOfConcat | server/index.js:375 | selecting from two runs of payments is selecting from each and joining the results |
| Reports.CustomerTotalIsSum | server/index.js:375-376 | the customer's "total paid" equals the sum over all payments of that customer's amounts, each counted once |
| Reports.OnePaymentTotal | server/index.js:375-376 | a single payment adds its amount to its own customer's total and nothing to any other |
| Reports.TotalPaidAppend | server/index.js:376 | the sum over two runs of payments is the sum of their sums |
| Reports.RevenueAfterPayment | server/index.js:393 | recording a payment raises total revenue by exactly its amount |
| Reports.CustomerTotalAfterPayment | server/index.js:375-376 | a payment raises its own customer's total paid by its amount and leaves every other customer's total unchanged |
| Billing.CreditCardRejected | src/Invoices.jsx:26 | a payment sent with method "Credit Card" fails the schema on its method path, whichever date default is used |
| PlanPricing.MatchingRule | src/Plans.jsx:146-147 | picks the first active, customer-less rule for the plan's id if any; only when none exists, the first such rule for exactly the plan's interval; none iff neither exists |
| PlanPricing.ChosenRuleApplies | src/Plans.jsx:165-166 | a chosen rule is active, customer-less and tied to the plan or its exact interval; a rule scoped "All" is chosen only through its plan |
| PlanPricing.FallbackDeduction | src/Plans.jsx:157 | Monthly 100, Quarterly 200, Half-Yearly 300, Yearly 400 |
| PlanPricing.RuleDeduction | src/Plans.jsx:170-171 | a fixed rule deducts its value; a percentage rule deducts base × value / 100 for every value, so a rule of 0..100 on a non-negative price deducts between 0 and the price, the whole price at 100 |
| PlanPricing.Deduction | src/Plans.jsx:145-171 | with a chosen rule, that rule's deduction on the plan price; with none, the interval's flat amount, between 100 and 400 |
| PlanPricing.ClampedPrice | src/Plans.jsx:172 | Math.max(0, base - deduction): never negative, base - deduction when that is not negative, and 0 otherwise |
| PlanPricing.FinalPrice | src/Plans.jsx:164-176 | the card's final price is never negative; it is the price less the chosen deduction when that does not exceed the price, and 0 otherwise |
| PlanPricing.FallbackPrice | src/Plans.jsx:174-175 | with no applicable rule the final price is the price less the interval's flat amount, clamped |
| PlanPricing.PercentagePrice | src/Plans.jsx:170-172 | a percentage rule of 0..100 on a non-negative price leaves price * (100 - value) / 100, between 0 and the price |
| PlanPricing.FixedRuleFloorsAtZero | src/Plans.jsx:171-172 | a fixed rule at least the price gives a final price of 0 |
| PlanPricing.Toggled | src/Plans.jsx:84-90 | an absent id is appended; a present id's first occurrence is removed, the rest keep their order, and the multiset loses exactly one copy |
| PlanPricing.ToggleTwiceAbsent | src/Plans.jsx:84-90 | toggling an absent id twice restores the list |
| PlanPricing.ToggleKeepsNoDuplicates | src/Plans.jsx:84-90 | on a duplicate-free list, toggling keeps it duplicate-free and flips membership of the id |
| PlanPricing.ToggleTwicePresent | src/Plans.jsx:84-90 | toggling a present id twice keeps the same services, duplicate-free, with the id moved to the end |
| PlanPricing.FlipOption | src/Plans.jsx:80-82 | exactly the chosen option changes value; the other three keep theirs |
| PlanPricing.FlipTwice | src/Plans.jsx:80-82 | a click always changes the options, and a second click on the same box restores them |
| PlanPricing.PlanForm.constructor | src/Plans.jsx:10-14 | the form starts with no services and the schema's option defaults |
| PlanPricing.PlanForm.ToggleService | src/Plans.jsx:84-90 | the services list becomes Toggled of the old list; the options are unchanged |
| PlanPricing.PlanForm.ToggleOption | src/Plans.jsx:80-82 | the options become FlipOption of the old ones; the services are unchanged |
| Validators.FailedRules | src/Login.jsx:24 | the failed rules are exactly the rules the password does not pass |
| Validators.NoFailedRules | src/ResetPassword.jsx:76 | no rule fails iff every rule passes, so the filter test and the every test agree |
| Validators.LoginPasswordRules | src/Login.jsx:12-17 | the sign-in password passes iff it has length >= 8, an upper-case letter, a lower-case letter and one of !@#$%^&* |
| Validators.SignupPasswordRules | src/Signup.jsx:20-26 | the sign-up password passes iff the same holds and it also has a digit |
| Validators.ResetPasswordRules | src/ResetPassword.jsx:70-75 | the new password passes iff its length is > 8 and it has upper, lower and special; no digit is needed |
| Validators.StricterPagesImplyLogin | src/ResetPassword.jsx:70-75 | a password the reset or sign-up page accepts also passes the sign-in rules |
| Validators.EightCharactersDiffer | src/ResetPassword.jsx:71 | "Abcdefg!" passes sign-in but not reset |
| Validators.DigitlessDiffers | src/Signup.jsx:24 | "Abcdefgh!" passes reset but not sign-up |
| Validators.EmailPatternsAgree | src/Signup.jsx:32 | the unanchored patterns `\S+@\S+\.\S` and `\S+@\S+\.\S+` accept exactly the same strings |
| Validators.EmailExamples | src/Login.jsx:22 | "a@b.c" matches the pattern and "ab.c" does not |
| Validators.EmailError | src/Login.jsx:21-22 | empty gives "Email is required"; otherwise "Email is invalid" iff the pattern does not match |
| Validators.LoginErrors | src/Login.jsx:19-29 | an email entry iff the email is empty or malformed, with the matching message; a password entry iff some rule fails; no other keys |
| Validators.SignupErrors | src/Signup.jsx:28-45 | only the five field keys occur; name, phone, password and confirmPassword each have an entry exactly when their check fails, with the page's messages "Full Name is required", "Phone is required", "Please meet all password requirements" and "Passwords do not match" |
| Validators.SignupErrorEntries | src/Signup.jsx:28-45 | name, email, phone, password and confirmPassword each have an entry exactly when their own check fails; no other keys |
| Validators.AcceptedSignup | src/Signup.jsx:28-45 | an accepted sign-up has a name, a phone, a matching confirmation, and a password and email the sign-in page also accepts |
| Validators.LoginForm.constructor | src/Login.jsx:7-9 | no role selected, empty fields and no errors |
| Validators.LoginForm.Validate | src/Login.jsx:19-29 | the errors become LoginErrors of the fields; the result is true iff there are none; the fields are unchanged |
| Validators.LoginForm.Submit | src/Login.jsx:31-56 | a request carrying email, password and selected role is sent iff validate passes; acceptance signs in; a refusal puts the server message under "form" into the errors of the submitting render; no answer leaves the empty error map |
| Validators.SignupForm.constructor | src/Signup.jsx:9-18 | empty fields and no errors |
| Validators.SignupForm.Validate | src/Signup.jsx:28-45 | the errors become SignupErrors of the fields; the result is true iff there are none |
| Validators.SignupForm.HandleChange | src/Signup.jsx:77-81 | only the edited field takes the value, and only its error is cleared |
| Validators.SignupForm.Submit | src/Signup.jsx:47-61 | a request is built iff validate passes, always with role Customer |
| ResetFlow.FailureMessage | src/ResetPassword.jsx:37-40 | a refusal shows the server's message; no answer shows "Something went wrong." |
| ResetFlow.NextStep | src/ResetPassword.jsx:33-57 | a successful OTP request moves to otp, a successful check to password, "Use different number" to phone, and a failure keeps the step |
| ResetFlow.OtpStepNeedsRequest | src/ResetPassword.jsx:33-36 | reaching the otp step from another step takes a successful OTP request |
| ResetFlow.PasswordStepNeedsBoth | src/ResetPassword.jsx:54-57 | on the page, reaching the password step from phone takes a successful OTP request followed later by a successful check |
| ResetFlow.NewPasswordError | src/ResetPassword.jsx:70-83 | the rules message comes first; the mismatch message only when the rules pass; no error iff both checks pass |
| ResetFlow.ResetPage.constructor | src/ResetPassword.jsx:9-20 | the page starts at the phone step with every field empty |
| ResetFlow.ResetPage.HandleRequestOtp | src/ResetPassword.jsx:23-41 | the step becomes NextStep of the answer; messages and the development OTP are set as the answer says; the other fields are unchanged |
| ResetFlow.ResetPage.HandleVerifyOtp | src/ResetPassword.jsx:44-62 | the step becomes NextStep of the answer; the reset token is stored only on success |
| ResetFlow.ResetPage.UseDifferentNumber | src/ResetPassword.jsx:167 | the step returns to phone and nothing else changes |
| ResetFlow.ResetPage.HandleResetPassword | src/ResetPassword.jsx:65-99 | the request with token and new password is sent iff NewPasswordError finds nothing; otherwise the error is shown and the step is unchanged |
| Appointments.Actions | src/Appointments.jsx:136-140 | staff view only: Pending offers Scheduled and Cancelled, Scheduled offers Completed and Cancelled, nothing returns to Pending |
| Appointments.ActionsMoveForward | src/Appointments.jsx:138-140 | Completed and Cancelled offer nothing; every button moves strictly forward |
| Appointments.ChainRank | src/Appointments.jsx:138-140 | each button in a series raises the appointment's rank by at least one |
| Appointments.ChainsAreShort | src/Appointments.jsx:138-140 | a series of status buttons has at most two steps |
| Appointments.RejectionText | src/Appointments.jsx:74 | `message \|\| error \|\| 'Failed to save appointment'` |
| Appointments.AppointmentForm.constructor | src/Appointments.jsx:11 | the booking form starts with all fields empty |
| Appointments.AppointmentForm.BuildPayload | src/Appointments.jsx:51-56 | date is the form's date or the selected day; an empty stylist is dropped; an empty customer is filled from the page's customer when one is given |
| Appointments.AppointmentForm.Submit | src/Appointments.jsx:45-78 | sends the cleaned payload: the date or else the selected day, the stylist only when non-empty and then as typed, the customer as typed or else the page's customer id; a saved booking empties the form; a failure keeps the fields and shows the message |
| Products.ProductForm.constructor | src/Products.jsx:7-11 | the form starts with the defaults, no variants and an empty draft |
| Products.ProductForm.AddVariant | src/Products.jsx:39-44 | a draft with attribute and value is appended and the draft emptied; otherwise nothing changes |
| Products.ProductForm.RemoveVariant | src/Products.jsx:46-50 | the variant list becomes the old one with position i spliced out |
| Products.ProductForm.Submit | src/Products.jsx:20-30 | the form is sent as it is; an answered request resets it to its defaults with no variants, a failed one throws before the reset and leaves it unchanged |

## Left out

- Persistence and framework glue are not modelled: MongoDB I/O, Express routing, HTTP status codes, `populate` and `sort`. The collections are in memory.
- Hashing, tokens and randomness are parameters: bcrypt hashing and comparison, JWT signing, `crypto.randomBytes`, `Math.random` and `Date.now`.
- Invoice and subscription numbers made from the last six digits of `Date.now()` are not modelled (server/index.js:273, 295). The create and confirm handlers receive the number as a parameter, and a repeated number is refused by the unique index.
- Billing.BillingStore.CreateSubscription: the id of the new subscription is a parameter that must be unused, standing for a fresh ObjectId. The update route `PUT /api/subscriptions/:id` is not modelled.
- Models.NewPayment, Models.NewPaymentAsWritten, Reports.TotalPaid, Reports.CustomerTotalIsSum: amounts, totals, prices and discount values are whole numbers. JavaScript stores them as double-precision numbers, and the invoice page sends `parseFloat(amount)`, so a fractional payment such as 499.50 is accepted there but cannot be written here, and floating-point rounding in the report sums is not modelled. Sums of whole numbers below 2^53 are exact in JavaScript, so the summation lemmas carry over to those.
- Billing.BillingStore.Confirm: the id of the new invoice is a parameter that must be unused, standing for a fresh ObjectId.
- SMS, email and WhatsApp notifications are not modelled, nor is the OTP logging.
- Accounts.PhoneMatches: `new RegExp(cleanPhone, 'i')` is modelled as plain substring search. Regular-expression metacharacters typed into the phone field, and case folding, are not modelled.
- The user reports' `countDocuments` counts (active subscriptions, upcoming expiries) and the admin report's customer count are not modelled. Only the payment sums are.
- PlanPricing.Deduction: `Number(x) \|\| 0` on the plan price and the rule value is not modelled. The schemas require both as numbers, so the zero fallback is never reached. For the same reason, the fallback table's final `: 0` branch is never reached, since the interval is one of the four enum values.
- PlanPricing.FinalPrice: the `toFixed(0)` display rounding and JavaScript floating point are not modelled. Prices are exact rationals.
- Mongoose `timestamps` (createdAt/updatedAt on most schemas) are not modelled. The explicit `createdAt` path of Payment is.
- The client's alerts, navigation and the formatted success text of a saved appointment are not modelled. A saved booking sets a flag, a finished reset sets `done`, and an accepted sign-in sets `signedIn`. The sign-up page's answers only raise alerts and navigate, so its submit handler ends with the request it sends.
- Passes: the length rules count Unicode characters, while JavaScript's `pw.length` counts UTF-16 code units. A character outside the Basic Multilingual Plane (an emoji, say) counts once here and twice in the browser, so a password such as "Ab!a" followed by three emoji passes the sign-in rule in the browser but not in this model. Passwords of Basic Multilingual Plane characters are judged alike.
- The appointment status update request is not modelled, and neither is the booking request itself: server/index.js defines no /api/appointments routes. The client side is modelled.
- Validators.SignupForm.HandleChange: the sign-up page sets an edited field's error to `null` and keeps the key; the model removes the key. Both show no message for that field, and `validate` builds a fresh map rather than reading this one.
- The product form's own fields other than `variants` are not modelled: the form only holds and resets them.
- Plan form fields other than `servicesIncluded` and `options` are not modelled, and nor is the plan save request.
- The schemas not read by any modelled logic are not part of this model: Product, Service, Tax and Notification.
- The seed scripts are not part of this model.

## Findings

| source | as written | input that shows it | evidently intended | confidence | as-written member | corrected member |
|---|---|---|---|---|---|---|
| server/models/Payment.js:8 | `default: Date.now()` calls `Date.now` once, when the schema is defined, so every payment posted without a date gets the server's start-up time | two payments without `date` posted at different times t1 != t2: both get the same `date`, while their `createdAt` (line 9, `default: Date.now`) differ | `default: Date.now`, so that an absent date is the time of creation, like `createdAt` | not executed | Models.NewPaymentAsWritten (Models.PaymentDateFrozenAtLoad) | Models.NewPayment |

The payment store, `Billing.BillingStore.RecordPayment`, builds payments the way the code as written does: it holds the load time `loadedAt` and uses `Models.NewPaymentAsWritten`. Neither client screen sends a `date`, so every recorded payment carries that load time. `Models.NewPayment` is the corrected schema, stated and proved beside it.
