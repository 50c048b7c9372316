/** When a payment may be started, and which one that is. */
module Decisions {
  import opened Prelude
  import opened Balances
  import opened Settlement
  import opened SettlementRuns
  import opened SettlementOutcomes
  import opened BalanceRequests
  import opened RecordedAnswers

  /** Payment i is still to be paid on this bill, for this amount and purpose. */
  predicate OpenFor(db: Db, i: int, bill: int, kind: PaymentType, amount: Money) {
    && 0 <= i < |db.payments|
    && db.payments[i].billId == bill && db.payments[i].kind == kind
    && db.payments[i].status == RequiresPayment && db.payments[i].amount == amount
  }

  ghost predicate AnyOpenFor(db: Db, bill: int, kind: PaymentType, amount: Money) {
    exists i :: OpenFor(db, i, bill, kind, amount)
  }

  /** A deposit of this bill has one of these statuses. */
  predicate HasDeposit(db: Db, bill: int, statuses: set<PaymentStatus>) {
    exists i :: 0 <= i < |db.payments| && db.payments[i].billId == bill
                && db.payments[i].kind == Deposit && db.payments[i].status in statuses
  }

  predicate KeyIsUsed(db: Db, key: string) {
    exists i :: 0 <= i < |db.payments| && db.payments[i].key == key
  }

  /** The payment that was open already, or else a new one under this key, with no intent yet. */
  ghost predicate Decided(db: Db, end: Db, row: int, bill: int, kind: PaymentType, amount: Money, key: string) {
    && OpenFor(end, row, bill, kind, amount)
    && if AnyOpenFor(db, bill, kind, amount) then end == db
       else
         && row == |db.payments| && end == db.(payments := end.payments)
         && |end.payments| == row + 1 && end.payments[..row] == db.payments
         && end.payments[row].id == row && end.payments[row].key == key && end.payments[row].intent.None?
  }

  /** A deposit is refused for the first of these reasons; otherwise an open one is resumed, or a new one made. */
  lemma DepositDecision(db: Db, bill: int, amount: Money, key: string)
    requires Good(db)
    ensures var r := DepositTx(db, bill, amount, key);
      if bill < 0 || bill >= |db.bills| then r == Err(NotFound)
      else if db.bills[bill].status != Open then r == Err(AlreadyBilled)
      else if HasDeposit(db, bill, {Succeeded, Refunded, PartiallyRefunded}) then r == Err(AlreadyPaid)
      else if HasDeposit(db, bill, {Processing}) then r == Err(StillProcessing)
      else if !AnyOpenFor(db, bill, Deposit, amount) && amount.minor <= 0 then r == Err(InvalidAmount)
      else if !AnyOpenFor(db, bill, Deposit, amount) && KeyIsUsed(db, key) then r == Err(KeyTaken)
      else r.Ok? && Decided(db, r.value.db, r.value.row, bill, Deposit, amount, key)
  {
    GoodHasRows(db);
    var all := PaymentsOf(db.payments, bill);
    AnyDepositIs(db, bill, true);
    AnyDepositIs(db, bill, false);
    hide Good, Decided, PaymentsOf, AnyDeposit, FindOpen, HasDeposit, AnyOpenFor, KeyIsUsed, InsertPayment;
    OpenOrNew(db, bill, Deposit, amount, key);
  }

  lemma AnyDepositIs(db: Db, bill: int, captured: bool)
    ensures AnyDeposit(PaymentsOf(db.payments, bill), captured)
       <==> HasDeposit(db, bill, if captured then {Succeeded, Refunded, PartiallyRefunded} else {Processing})
  {
    var all := PaymentsOf(db.payments, bill);
    var statuses := if captured then {Succeeded, Refunded, PartiallyRefunded} else {Processing};
    PaymentsOfAre(db.payments, bill);
    if AnyDeposit(all, captured) {
      var k :| 0 <= k < |all| && all[k].kind == Deposit
        && (if captured then all[k].status.Captured() else all[k].status == Processing);
      assert all[k] in all;
      var i :| 0 <= i < |db.payments| && db.payments[i] == all[k];
      assert db.payments[i].status in statuses;
    }
    if HasDeposit(db, bill, statuses) {
      var i :| 0 <= i < |db.payments| && db.payments[i].billId == bill
        && db.payments[i].kind == Deposit && db.payments[i].status in statuses;
      PaymentsOfHas(db.payments, bill, i);
      var k :| 0 <= k < |all| && all[k] == db.payments[i];
      assert if captured then all[k].status.Captured() else all[k].status == Processing;
    }
  }

  /** What both decisions end with. */
  lemma OpenOrNew(db: Db, bill: int, kind: PaymentType, amount: Money, key: string)
    requires RowsFit(db)
    ensures var open := FindOpen(PaymentsOf(db.payments, bill), kind, amount);
      var r := if open.Some? then Ok(Outcome(db, open.value)) else InsertPayment(db, bill, kind, amount, key);
      && (open.Some? <==> AnyOpenFor(db, bill, kind, amount))
      && (if open.None? && amount.minor <= 0 then r == Err(InvalidAmount)
          else if open.None? && KeyIsUsed(db, key) then r == Err(KeyTaken)
          else r.Ok? && Decided(db, r.value.db, r.value.row, bill, kind, amount, key))
  {
    var all := PaymentsOf(db.payments, bill);
    PaymentsOfAre(db.payments, bill);
    FindOpenFinds(all, kind, amount);
    FindOpenMisses(all, kind, amount);
    FindByKeyFinds(db.payments, key);
    hide FindOpen, FindByKey;
    var open := FindOpen(all, kind, amount);
    if open.Some? {
      var k :| 0 <= k < |all| && all[k].id == open.value && all[k].kind == kind
        && all[k].status == RequiresPayment && all[k].amount == amount;
      assert all[k] in all;
      assert OpenFor(db, open.value, bill, kind, amount);
    } else {
      forall i ensures !OpenFor(db, i, bill, kind, amount) {
        if 0 <= i < |db.payments| && db.payments[i].billId == bill {
          PaymentsOfHas(db.payments, bill, i);
        }
      }
    }
    hide PaymentsOf, RowsFit;
  }

  /** What the customer still owes on a bill. */
  function BalanceDue(db: Db, bill: int): Money
    requires IsBill(db, bill)
  {
    Money(Standing(db, bill).Due(), db.bills[bill].currency)
  }

  /** A balance is refused for the first of these reasons; otherwise what is due, and an open payment of it
      is resumed or a new one made. */
  lemma BalanceDecision(db: Db, bill: int, key: string)
    requires Good(db)
    ensures var r := FinalTx(db, bill, key);
      if bill < 0 || bill >= |db.bills| then r == Err(NotFound)
      else if db.bills[bill].status !in {Pending, PartiallyPaid} then r == Err(BillTakesNoPayment)
      else if exists i :: 0 <= i < |db.payments| && IsInFlight(db.payments[i], bill) then r == Err(StillProcessing)
      else
        && var due := BalanceDue(db, bill);
        && due.minor > 0
        && if !AnyOpenFor(db, bill, Final, due) && KeyIsUsed(db, key) then r == Err(KeyTaken)
           else r.Ok? && Decided(db, r.value.db, r.value.row, bill, Final, due, key)
  {
    GoodHasRows(db);
    if IsBill(db, bill) {
      var due := BalanceDue(db, bill);
      StatusIsDerived(db, bill);
      if db.bills[bill].Priced() {
        StatusMeans(db.bills[bill], Standing(db, bill));
      }
      InFlightIs(db, bill);
      assert db.bills[bill].id == bill;
      hide Good, Decided, PaymentsOf, FindOpen, AnyOpenFor, KeyIsUsed, InsertPayment, BalanceAt, Standing;
      OpenOrNew(db, bill, Final, due, key);
    }
  }

  predicate IsInFlight(p: Payment, bill: int) {
    p.billId == bill && p.status == Processing
  }

  lemma InFlightIs(db: Db, bill: int)
    ensures var all := PaymentsOf(db.payments, bill);
      (exists k :: 0 <= k < |all| && all[k].status == Processing)
      <==> exists i :: 0 <= i < |db.payments| && IsInFlight(db.payments[i], bill)
  {
    var all := PaymentsOf(db.payments, bill);
    PaymentsOfAre(db.payments, bill);
    if k :| 0 <= k < |all| && all[k].status == Processing {
      assert all[k] in all;
    }
    if i :| 0 <= i < |db.payments| && IsInFlight(db.payments[i], bill) {
      PaymentsOfHas(db.payments, bill, i);
    }
  }

  /** A payment that was read in an older version is not saved, nor is one with the intent of another; one that
      changed has the next version. */
  lemma SavingAnswers(db: Db, id: int, p: Payment)
    requires IsPayment(db, id)
    ensures var r := SavePayment(db, id, p); var row := db.payments[id];
      if p.version != row.version then r == Err(StaleVersion)
      else if p.intent.Some? && exists i :: 0 <= i < |db.payments| && i != id && db.payments[i].intent == p.intent
      then r == Err(IntentTaken)
      else
        && r.Ok? && r.value == db.(payments := r.value.payments) && |r.value.payments| == |db.payments|
        && (forall i :: 0 <= i < |db.payments| && i != id ==> r.value.payments[i] == db.payments[i])
        && r.value.payments[id] == if p == row then row else p.(version := row.version + 1)
  {
  }

  /** Superseding an open payment records what the provider says of its intent, or marks it FAILED if it never had
      one; nobody is told of a decline. */
  lemma SupersedingAnswers(db: Db, p: Payment, answers: map<string, Intent>, now: int)
    requires Good(db) && IsPayment(db, p.id) && db.payments[p.id] == p && p.status == RequiresPayment
    requires p.intent.Some? ==> p.intent.value in answers
    ensures var end := Exec(db, Cancellation(db, p, answers, now));
      && (p.intent.None? ==>
           && end == db.(payments := end.payments) && |end.payments| == |db.payments|
           && end.payments == db.payments[p.id := end.payments[p.id]]
           && end.payments[p.id].status == FailedPayment)
      && (p.intent.Some? && end != db ==>
           && WritesOnly(db, end, p.id)
           && MovedBy(p, end.payments[p.id], answers[p.intent.value], now))
      && (end.outbox == db.outbox || exists e: Event :: e.PaymentReceived? && end.outbox == db.outbox + [e])
  {
    GoodHasRows(db);
    if p.intent.None? {
      hide Good;
      assert Exec(db, Cancellation(db, p, answers, now)).outbox == db.outbox;
    } else {
      var a := answers[p.intent.value];
      ObservedIs(db, p, answers, now);
      if ApplyTx(db, p.id, p, a, false, now).Ok? {
        AnswerWrites(db, p.id, p, a, false, now);
        hide ApplyTx, Good, Exec, MovedBy, WritesOnly;
        assert db.outbox + [] == db.outbox;
      }
    }
  }

  lemma ObservedIs(db: Db, p: Payment, answers: map<string, Intent>, now: int)
    requires IsPayment(db, p.id) && db.payments[p.id] == p && p.intent.Some? && p.intent.value in answers
    ensures var r := ApplyTx(db, p.id, p, answers[p.intent.value], false, now);
      Exec(db, Cancellation(db, p, answers, now)) == if r.Ok? then r.value else db
  {
    hide ApplyTx;
  }
}
