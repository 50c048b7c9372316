/** Bills, payments, and where a bill stands. */
module Balances {
  import opened Prelude

  datatype Money = Money(minor: int, currency: string)

  /** OPEN is not priced yet; VOID is final. */
  datatype BillStatus = Open | Pending | PartiallyPaid | Paid | Void

  datatype LineKind = ServiceLine | MaterialLine | WarrantyFeeLine

  datatype BillLine = BillLine(kind: LineKind, name: string, quantity: int, unitPrice: int)

  /** The fees, like the lines' prices, are minor units of the bill's currency. */
  datatype Bill = Bill(
    id: int, appointment: int, customer: int, vehicle: int, currency: string,
    warrantyFee: int, serviceFee: int, materialCost: int,
    status: BillStatus, finalizedAt: Option<int>, lines: seq<BillLine>)
  {
    function Total(): int {
      warrantyFee + serviceFee + materialCost
    }

    predicate Priced() {
      status != Open && status != Void
    }
  }

  datatype PaymentType = Deposit | Final

  datatype PaymentStatus =
    | RequiresPayment | Processing | Succeeded | FailedPayment | Canceled | Refunded | PartiallyRefunded
  {
    /** The money was taken, even if some of it was refunded since. */
    predicate Captured() {
      Succeeded? || Refunded? || PartiallyRefunded?
    }
  }

  datatype Payment = Payment(
    id: int, billId: int, kind: PaymentType, amount: Money, status: PaymentStatus, intent: Option<string>,
    key: string, failureCode: Option<string>, failureMessage: Option<string>, card: Option<string>,
    succeededAt: Option<int>, version: nat)
  {
    /** FAILED is not final: a charge on it would still be recorded. */
    predicate IsFinal() {
      status.Captured() || status.Canceled?
    }
  }

  datatype RefundStatus = RefundPending | RefundSucceeded | RefundFailed | RefundCanceled

  datatype Refund = Refund(paymentId: int, amount: Money, status: RefundStatus)

  datatype Error =
    | WrongBill | CurrencyMismatch | NotFound | BillTakesNoPayment | StillProcessing | NothingDue | AlreadyPaid
    | AlreadyBilled | KeyTaken | IntentTaken | LiveBillExists | InvalidAmount | InvalidLine | ProviderUnavailable
    | StaleVersion

  /** Positive balance is owed by the customer, negative is owed to them. */
  datatype Balance = Balance(total: int, paid: int, refunded: int)
  {
    function Held(): int {
      paid - refunded
    }

    function Due(): int {
      if total - Held() > 0 then total - Held() else 0
    }

    function RefundDue(): int {
      if total - Held() < 0 then -(total - Held()) else 0
    }

    function StatusFor(bill: Bill): BillStatus {
      if bill.status == Open || bill.status == Void then bill.status
      else if total - Held() <= 0 then Paid
      else if Held() > 0 then PartiallyPaid
      else Pending
    }
  }

  function PaidOf(bill: Bill, payments: seq<Payment>): Result<int, Error> {
    if payments == [] then Ok(0)
    else
      var n := |payments| - 1;
      var before := PaidOf(bill, payments[..n]);
      if before.Err? then before
      else if payments[n].billId != bill.id then Err(WrongBill)
      else if !payments[n].status.Captured() then before
      else if payments[n].amount.currency != bill.currency then Err(CurrencyMismatch)
      else Ok(before.value + payments[n].amount.minor)
  }

  function RefundedOf(bill: Bill, refunds: seq<Refund>): Result<int, Error> {
    if refunds == [] then Ok(0)
    else
      var n := |refunds| - 1;
      var before := RefundedOf(bill, refunds[..n]);
      if before.Err? || refunds[n].status != RefundSucceeded then before
      else if refunds[n].amount.currency != bill.currency then Err(CurrencyMismatch)
      else Ok(before.value + refunds[n].amount.minor)
  }

  function BalanceOf(bill: Bill, payments: seq<Payment>, refunds: seq<Refund>): Result<Balance, Error> {
    var paid := PaidOf(bill, payments);
    if paid.Err? then Err(paid.error)
    else
      var refunded := RefundedOf(bill, refunds);
      if refunded.Err? then Err(refunded.error)
      else Ok(Balance(if bill.Priced() then bill.Total() else 0, paid.value, refunded.value))
  }

  /** Adds up in two loops; the first amount in a foreign currency stops it. */
  method ComputeBalance(bill: Bill, payments: seq<Payment>, refunds: seq<Refund>) returns (r: Result<Balance, Error>)
    ensures r == BalanceOf(bill, payments, refunds)
  {
    var total := if bill.status == Open || bill.status == Void then 0 else bill.Total();
    var paid := 0;
    for i := 0 to |payments|
      invariant PaidOf(bill, payments[..i]) == Ok(paid)
    {
      assert payments[..i + 1][..i] == payments[..i];
      var p := payments[i];
      if p.billId != bill.id {
        PaidOfStopsAt(bill, payments, i, WrongBill);
        return Err(WrongBill);
      }
      if p.status.Captured() {
        if p.amount.currency != bill.currency {
          PaidOfStopsAt(bill, payments, i, CurrencyMismatch);
          return Err(CurrencyMismatch);
        }
        paid := paid + p.amount.minor;
      }
    }
    assert payments[..|payments|] == payments;
    var refunded := 0;
    for i := 0 to |refunds|
      invariant RefundedOf(bill, refunds[..i]) == Ok(refunded)
    {
      assert refunds[..i + 1][..i] == refunds[..i];
      var refund := refunds[i];
      if refund.status == RefundSucceeded {
        if refund.amount.currency != bill.currency {
          RefundedOfStopsAt(bill, refunds, i);
          return Err(CurrencyMismatch);
        }
        refunded := refunded + refund.amount.minor;
      }
    }
    assert refunds[..|refunds|] == refunds;
    return Ok(Balance(total, paid, refunded));
  }

  lemma {:induction false} PaidOfStopsAt(bill: Bill, payments: seq<Payment>, i: nat, error: Error)
    requires i < |payments| && PaidOf(bill, payments[..i + 1]) == Err(error)
    ensures PaidOf(bill, payments) == Err(error)
  {
    if i + 1 == |payments| {
      assert payments[..i + 1] == payments;
    } else {
      var n := |payments| - 1;
      assert payments[..n][..i + 1] == payments[..i + 1];
      PaidOfStopsAt(bill, payments[..n], i, error);
    }
  }

  lemma {:induction false} RefundedOfStopsAt(bill: Bill, refunds: seq<Refund>, i: nat)
    requires i < |refunds| && RefundedOf(bill, refunds[..i + 1]) == Err(CurrencyMismatch)
    ensures RefundedOf(bill, refunds) == Err(CurrencyMismatch)
  {
    if i + 1 == |refunds| {
      assert refunds[..i + 1] == refunds;
    } else {
      var n := |refunds| - 1;
      assert refunds[..n][..i + 1] == refunds[..i + 1];
      RefundedOfStopsAt(bill, refunds[..n], i);
    }
  }

  /** A priced bill's status says exactly what is still owed and whether anything is held. */
  lemma StatusMeans(bill: Bill, balance: Balance)
    requires bill.Priced()
    ensures balance.Held() + balance.Due() - balance.RefundDue() == balance.total
    ensures balance.Due() >= 0 && balance.RefundDue() >= 0 && (balance.Due() == 0 || balance.RefundDue() == 0)
    ensures balance.StatusFor(bill) == Paid <==> balance.Due() == 0
    ensures balance.StatusFor(bill) == Pending <==> balance.Due() > 0 && balance.Held() <= 0
    ensures balance.StatusFor(bill) == PartiallyPaid <==> 0 < balance.Held() < balance.total
  {
  }

  // --- Sums over all payments ---------------------------------------------------

  function PaymentsOf(payments: seq<Payment>, bill: int): seq<Payment> {
    if payments == [] then []
    else
      var init := PaymentsOf(payments[..|payments| - 1], bill);
      if payments[|payments| - 1].billId == bill then init + [payments[|payments| - 1]] else init
  }

  /** What payment p adds to what the bill was paid. */
  function Contribution(p: Payment, bill: int): int {
    if p.billId == bill && p.status.Captured() then p.amount.minor else 0
  }

  function PaidSum(payments: seq<Payment>, bill: int): int {
    if payments == [] then 0
    else PaidSum(payments[..|payments| - 1], bill) + Contribution(payments[|payments| - 1], bill)
  }

  predicate CapturedIn(p: Payment, bill: Bill) {
    p.billId == bill.id && p.status.Captured() ==> p.amount.currency == bill.currency
  }

  /** The fold of the balance succeeds exactly if no captured payment is in a foreign currency, and is then the sum. */
  lemma {:induction false} PaidOfIsTheSum(bill: Bill, payments: seq<Payment>)
    ensures PaidOf(bill, PaymentsOf(payments, bill.id)).Ok?
       <==> forall i :: 0 <= i < |payments| ==> CapturedIn(payments[i], bill)
    ensures var paid := PaidOf(bill, PaymentsOf(payments, bill.id));
      if paid.Ok? then paid.value == PaidSum(payments, bill.id) else paid.error == CurrencyMismatch
  {
    hide PaidOf, PaymentsOf, Contribution;
    if payments == [] {
      PaidOfNothing(bill);
    } else {
      var n := |payments| - 1;
      PaidOfIsTheSum(bill, payments[..n]);
      PaidOfOneMore(bill, payments);
      assert forall i :: 0 <= i < n ==> payments[..n][i] == payments[i];
      assert payments[n] == payments[|payments| - 1];
    }
  }

  lemma PaidOfNothing(bill: Bill)
    ensures PaidOf(bill, PaymentsOf([], bill.id)) == Ok(0)
  {
  }

  lemma PaidOfOneMore(bill: Bill, payments: seq<Payment>)
    requires payments != []
    ensures var last := payments[|payments| - 1];
      var before := PaidOf(bill, PaymentsOf(payments[..|payments| - 1], bill.id));
      PaidOf(bill, PaymentsOf(payments, bill.id))
      == if before.Err? then before
         else if !CapturedIn(last, bill) then Err(CurrencyMismatch)
         else Ok(before.value + Contribution(last, bill.id))
  {
    hide PaymentsOf, PaidOf;
    var last := payments[|payments| - 1];
    PaymentsOfOneMore(payments, bill.id);
    if last.billId == bill.id {
      PaidOfAppend(bill, PaymentsOf(payments[..|payments| - 1], bill.id), last);
    }
  }

  lemma PaymentsOfOneMore(payments: seq<Payment>, bill: int)
    requires payments != []
    ensures var last := payments[|payments| - 1];
      var before := PaymentsOf(payments[..|payments| - 1], bill);
      PaymentsOf(payments, bill) == if last.billId == bill then before + [last] else before
  {
  }

  lemma PaidOfAppend(bill: Bill, init: seq<Payment>, last: Payment)
    requires last.billId == bill.id
    ensures PaidOf(bill, init + [last])
         == if PaidOf(bill, init).Err? then PaidOf(bill, init)
            else if !CapturedIn(last, bill) then Err(CurrencyMismatch)
            else Ok(PaidOf(bill, init).value + Contribution(last, bill.id))
  {
    var all := init + [last];
    assert all[|all| - 1] == last && all[..|all| - 1] == init;
  }

  lemma {:induction false} PaidSumAfterUpdate(payments: seq<Payment>, i: nat, p: Payment, bill: int)
    requires i < |payments|
    ensures PaidSum(payments[i := p], bill)
         == PaidSum(payments, bill) - Contribution(payments[i], bill) + Contribution(p, bill)
  {
    var n := |payments| - 1;
    if i < n {
      PaidSumAfterUpdate(payments[..n], i, p, bill);
      assert payments[i := p][..n] == payments[..n][i := p];
    } else {
      assert payments[i := p][..n] == payments[..n];
    }
  }

  lemma PaidSumAfterInsert(payments: seq<Payment>, p: Payment, bill: int)
    ensures PaidSum(payments + [p], bill) == PaidSum(payments, bill) + Contribution(p, bill)
  {
    assert (payments + [p])[..|payments|] == payments;
  }
}
