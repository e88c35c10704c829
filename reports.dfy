/** The payment reports of the server (server/index.js:375-376, 393): the
    admin report's revenue and a customer's "total paid" are plain sums of
    payment amounts. */
module Reports {
  import opened Wrappers
  import opened Models

  /** `payments.reduce((acc, curr) => acc + curr.amount, 0)`, folded from
      the left as `reduce` does. */
  function TotalPaid(ps: seq<Payment>): (r: int)
    ensures (forall i :: 0 <= i < |ps| ==> ps[i].amount >= 0) ==> r >= 0
  {
    if |ps| == 0 then 0 else TotalPaid(ps[..|ps| - 1]) + ps[|ps| - 1].amount
  }

  /** The payments `Payment.find({ customer })` returns, in order. */
  function PaymentsOf(ps: seq<Payment>, customer: Id): (r: seq<Payment>)
    ensures forall p :: p in r <==> p in ps && p.customer == Some(customer)
    ensures forall p :: multiset(r)[p] == if p.customer == Some(customer) then multiset(ps)[p] else 0
    ensures |r| <= |ps|
  {
    if |ps| == 0 then []
    else
      var init := ps[..|ps| - 1];
      var last := ps[|ps| - 1];
      assert ps == init + [last];
      if last.customer == Some(customer) then PaymentsOf(init, customer) + [last]
      else PaymentsOf(init, customer)
  }

  /** The total of one customer's payments, summed over all payments
      without selecting them first. */
  function CustomerSum(ps: seq<Payment>, customer: Id): int {
    if |ps| == 0 then 0
    else (if ps[0].customer == Some(customer) then ps[0].amount else 0) + CustomerSum(ps[1..], customer)
  }

  /** The total of two runs of payments is the sum of their totals. */
  lemma {:induction false} TotalPaidAppend(a: seq<Payment>, b: seq<Payment>)
    ensures TotalPaid(a + b) == TotalPaid(a) + TotalPaid(b)
  {
    if |b| == 0 {
      assert a + b == a;
    } else {
      var b' := b[..|b| - 1];
      assert (a + b)[..|a + b| - 1] == a + b';
      TotalPaidAppend(a, b');
    }
  }

  /** The per-customer report's "total paid" is the sum of exactly that
      customer's amounts, each payment counted once. */
  lemma {:induction false} CustomerTotalIsSum(ps: seq<Payment>, customer: Id)
    ensures TotalPaid(PaymentsOf(ps, customer)) == CustomerSum(ps, customer)
    decreases |ps|
  {
    if |ps| > 0 {
      var head, rest := [ps[0]], ps[1..];
      assert ps == head + rest;
      CustomerTotalIsSum(rest, customer);
      PaymentsOfConcat(head, rest, customer);
      TotalPaidAppend(PaymentsOf(head, customer), PaymentsOf(rest, customer));
      OnePaymentTotal(ps[0], customer);
    }
  }

  /** A single payment counts toward its own customer only. */
  lemma OnePaymentTotal(p: Payment, customer: Id)
    ensures TotalPaid(PaymentsOf([p], customer)) == if p.customer == Some(customer) then p.amount else 0
  {
    assert [p][..0] == [];
    if p.customer == Some(customer) {
      assert PaymentsOf([p], customer) == [p];
      assert [p][..0] == [];
    }
  }

  /** Selecting one customer's payments from two runs is selecting from
      each run and joining the results. */
  lemma {:induction false} PaymentsOfConcat(a: seq<Payment>, b: seq<Payment>, customer: Id)
    ensures PaymentsOf(a + b, customer) == PaymentsOf(a, customer) + PaymentsOf(b, customer)
    decreases |b|
  {
    if |b| == 0 {
      assert a + b == a;
    } else {
      var b' := b[..|b| - 1];
      assert (a + b)[..|a + b| - 1] == a + b';
      PaymentsOfConcat(a, b', customer);
    }
  }

  /** Recording a payment raises the admin report's revenue by exactly its
      amount, whether or not it paid off an invoice. */
  lemma RevenueAfterPayment(ps: seq<Payment>, p: Payment)
    ensures TotalPaid(ps + [p]) == TotalPaid(ps) + p.amount
  {
    TotalPaidAppend(ps, [p]);
    assert TotalPaid([p]) == TotalPaid([]) + p.amount;
  }

  /** Recording a payment raises its own customer's "total paid" by its
      amount and leaves every other customer's total as it was. */
  lemma CustomerTotalAfterPayment(ps: seq<Payment>, p: Payment, c: Id)
    ensures p.customer == Some(c) ==> TotalPaid(PaymentsOf(ps + [p], c)) == TotalPaid(PaymentsOf(ps, c)) + p.amount
    ensures p.customer != Some(c) ==> TotalPaid(PaymentsOf(ps + [p], c)) == TotalPaid(PaymentsOf(ps, c))
  {
    assert (ps + [p])[..|ps + [p]| - 1] == ps;
    if p.customer == Some(c) {
      RevenueAfterPayment(PaymentsOf(ps, c), p);
    }
  }
}
