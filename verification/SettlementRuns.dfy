/** What every run of billing's transactions keeps. */
module SettlementRuns {
  import opened Prelude
  import opened Balances
  import opened Settlement

  ghost predicate RowsFit(db: Db) {
    && (forall b :: 0 <= b < |db.bills| ==> db.bills[b].id == b)
    && (forall i :: 0 <= i < |db.payments| ==>
         db.payments[i].id == i && IsBill(db, db.payments[i].billId) && db.payments[i].amount.minor > 0)
    && (forall i :: 0 <= i < |db.refunds| ==> IsPayment(db, db.refunds[i].paymentId))
  }

  /** No captured or refunded money is in another currency than its bill. */
  ghost predicate CurrenciesFit(db: Db)
    requires RowsFit(db)
  {
    && (forall i :: 0 <= i < |db.payments| ==> CapturedIn(db.payments[i], db.bills[db.payments[i].billId]))
    && (forall i :: 0 <= i < |db.refunds| && db.refunds[i].status == RefundSucceeded ==>
         db.refunds[i].amount.currency == db.bills[db.payments[db.refunds[i].paymentId].billId].currency)
  }

  function RefundedSum(refunds: seq<Refund>): int {
    if refunds == [] then 0
    else RefundedSum(refunds[..|refunds| - 1])
         + (if refunds[|refunds| - 1].status == RefundSucceeded then refunds[|refunds| - 1].amount.minor else 0)
  }

  /** Where bill b stands, as sums over the tables. */
  function Standing(db: Db, b: int): Balance
    requires IsBill(db, b)
  {
    Balance(if db.bills[b].Priced() then db.bills[b].Total() else 0,
            PaidSum(db.payments, b), RefundedSum(RefundsOf(db, db.refunds, b)))
  }

  ghost predicate StatusesFit(db: Db) {
    forall b :: 0 <= b < |db.bills| ==>
      db.bills[b].status == Standing(db, b).StatusFor(db.bills[b])
  }

  ghost predicate LinesFit(bill: Bill) {
    && bill.Total() == AllLines(bill.lines)
    && (bill.status == Open ==> bill.lines == [] && bill.finalizedAt.None?)
    && (bill.Priced() ==> bill.finalizedAt.Some?)
  }

  function Received(outbox: seq<Event>, payment: int): nat {
    if outbox == [] then 0
    else Received(outbox[..|outbox| - 1], payment)
         + (if outbox[|outbox| - 1].PaymentReceived? && outbox[|outbox| - 1].payment == payment then 1 else 0)
  }

  /** PaymentReceived was published once for each captured payment, and for no other. */
  ghost predicate EventsFit(db: Db) {
    forall p :: Received(db.outbox, p) == if IsPayment(db, p) && db.payments[p].status.Captured() then 1 else 0
  }

  ghost predicate Unique(db: Db) {
    && (forall i, j :: 0 <= i < j < |db.payments| ==> db.payments[i].key != db.payments[j].key)
    && (forall i, j :: 0 <= i < j < |db.payments| && db.payments[i].intent.Some? ==>
         db.payments[i].intent != db.payments[j].intent)
    && (forall a, b :: 0 <= a < b < |db.bills| && db.bills[a].appointment == db.bills[b].appointment ==>
         db.bills[a].status == Void || db.bills[b].status == Void)
  }

  ghost predicate Good(db: Db) {
    && RowsFit(db)
    && CurrenciesFit(db)
    && StatusesFit(db)
    && (forall b :: 0 <= b < |db.bills| ==> LinesFit(db.bills[b]))
    && EventsFit(db)
    && Unique(db)
  }

  // --- The balance is the sum -----------------------------------------------------

  lemma {:induction false} RefundedOfIsTheSum(bill: Bill, refunds: seq<Refund>)
    requires forall i :: 0 <= i < |refunds| && refunds[i].status == RefundSucceeded ==>
      refunds[i].amount.currency == bill.currency
    ensures RefundedOf(bill, refunds) == Ok(RefundedSum(refunds))
  {
    if refunds != [] {
      RefundedOfIsTheSum(bill, refunds[..|refunds| - 1]);
    }
  }

  lemma {:induction false} RefundsOfAre(db: Db, refunds: seq<Refund>, bill: int)
    ensures forall r :: r in RefundsOf(db, refunds, bill) ==>
      r in refunds && IsPayment(db, r.paymentId) && db.payments[r.paymentId].billId == bill
  {
    if refunds != [] {
      RefundsOfAre(db, refunds[..|refunds| - 1], bill);
    }
  }

  /** For a bill stored under b, the balance's fold succeeds exactly if its captured payments are in its currency. */
  lemma BalanceIsTheSum(db: Db, b: int, bill: Bill)
    requires RowsFit(db) && IsBill(db, b) && bill.id == b && bill.currency == db.bills[b].currency
    requires forall i :: 0 <= i < |db.refunds| && db.refunds[i].status == RefundSucceeded ==>
      db.refunds[i].amount.currency == db.bills[db.payments[db.refunds[i].paymentId].billId].currency
    ensures BalanceAt(db, bill).Ok? <==> forall i :: 0 <= i < |db.payments| ==> CapturedIn(db.payments[i], bill)
    ensures var balance := BalanceAt(db, bill);
      if balance.Err? then balance.error == CurrencyMismatch
      else balance.value == Balance(if bill.Priced() then bill.Total() else 0,
                                    PaidSum(db.payments, b), RefundedSum(RefundsOf(db, db.refunds, b)))
  {
    PaidOfIsTheSum(bill, db.payments);
    var refunds := RefundsOf(db, db.refunds, b);
    RefundsOfAre(db, db.refunds, b);
    forall i | 0 <= i < |refunds| && refunds[i].status == RefundSucceeded
      ensures refunds[i].amount.currency == bill.currency
    {
      assert refunds[i] in db.refunds;
    }
    RefundedOfIsTheSum(bill, refunds);
  }

  lemma {:induction false} RefundsStay(db: Db, db': Db, refunds: seq<Refund>, b: int)
    requires forall i :: 0 <= i < |refunds| ==> IsPayment(db, refunds[i].paymentId)
    requires |db.payments| <= |db'.payments|
    requires forall i :: 0 <= i < |db.payments| ==> db'.payments[i].billId == db.payments[i].billId
    ensures RefundsOf(db', refunds, b) == RefundsOf(db, refunds, b)
  {
    if refunds != [] {
      RefundsStay(db, db', refunds[..|refunds| - 1], b);
    }
  }

  // --- Small changes ---------------------------------------------------------------

  lemma ReceivedAfter(outbox: seq<Event>, e: Event, p: int)
    ensures Received(outbox + [e], p) == Received(outbox, p) + (if e.PaymentReceived? && e.payment == p then 1 else 0)
  {
    assert (outbox + [e])[..|outbox|] == outbox;
  }

  /** Bookkeeping rows and other events do not touch what Good speaks of. */
  lemma BookkeepingKeepsGood(db: Db, db': Db)
    requires Good(db) && db'.bills == db.bills && db'.payments == db.payments && db'.refunds == db.refunds
    requires db'.outbox == db.outbox || exists e: Event :: !e.PaymentReceived? && db'.outbox == db.outbox + [e]
    ensures Good(db')
  {
    forall p ensures Received(db'.outbox, p) == Received(db.outbox, p) {
      if e: Event :| !e.PaymentReceived? && db'.outbox == db.outbox + [e] {
        ReceivedAfter(db.outbox, e, p);
      }
    }
    forall b | 0 <= b < |db.bills| ensures Standing(db', b) == Standing(db, b) {
      RefundsStay(db, db', db.refunds, b);
    }
  }

  predicate SameMoney(p: Payment, q: Payment) {
    q.id == p.id && q.billId == p.billId && q.amount == p.amount && q.key == p.key
  }

  /** From db to db' payments are only added or changed, never moved or unlinked from their bill. */
  ghost predicate Grows(db: Db, db': Db) {
    && db'.refunds == db.refunds
    && |db.payments| <= |db'.payments|
    && (forall i :: 0 <= i < |db.payments| ==>
         db'.payments[i].billId == db.payments[i].billId && db'.payments[i].amount == db.payments[i].amount)
  }

  /** ... and whatever is captured was captured before. */
  ghost predicate CapturesNothing(db: Db, db': Db) {
    forall i :: 0 <= i < |db'.payments| ==>
      db'.payments[i].status.Captured() == (i < |db.payments| && db.payments[i].status.Captured())
  }

  lemma StatusesStay(db: Db, db': Db)
    requires RowsFit(db) && StatusesFit(db) && Grows(db, db') && db'.bills == db.bills
    requires forall b :: 0 <= b < |db.bills| ==> PaidSum(db'.payments, b) == PaidSum(db.payments, b)
    ensures StatusesFit(db')
  {
    forall b | 0 <= b < |db.bills| ensures db'.bills[b].status == Standing(db', b).StatusFor(db'.bills[b]) {
      RefundsStay(db, db', db.refunds, b);
    }
  }

  lemma CurrenciesStay(db: Db, db': Db)
    requires RowsFit(db) && RowsFit(db') && CurrenciesFit(db) && Grows(db, db') && CapturesNothing(db, db')
    requires |db.bills| <= |db'.bills|
    requires forall b :: 0 <= b < |db.bills| ==> db'.bills[b].currency == db.bills[b].currency
    ensures CurrenciesFit(db')
  {
    forall i | 0 <= i < |db'.payments| ensures CapturedIn(db'.payments[i], db'.bills[db'.payments[i].billId]) {
      if db'.payments[i].status.Captured() {
        assert CapturedIn(db.payments[i], db.bills[db.payments[i].billId]);
      }
    }
  }

  lemma EventsStay(db: Db, db': Db)
    requires EventsFit(db) && db'.outbox == db.outbox && CapturesNothing(db, db') && |db.payments| <= |db'.payments|
    ensures EventsFit(db')
  {
    forall p
      ensures Received(db'.outbox, p) == if IsPayment(db', p) && db'.payments[p].status.Captured() then 1 else 0
    {
      assert Received(db.outbox, p) == if IsPayment(db, p) && db.payments[p].status.Captured() then 1 else 0;
    }
  }

  /** A saved change that captures nothing leaves every balance alone. */
  lemma SavingKeepsGood(db: Db, q: Payment)
    requires Good(db) && IsPayment(db, q.id) && SameMoney(db.payments[q.id], q) && SavePayment(db, q.id, q).Ok?
    requires q.status.Captured() == db.payments[q.id].status.Captured()
    ensures Good(SavePayment(db, q.id, q).value)
  {
    var db' := SavePayment(db, q.id, q).value;
    SavingKeepsRows(db, q);
    SavingKeepsSums(db, q);
    StatusesStay(db, db');
    CurrenciesStay(db, db');
    EventsStay(db, db');
  }

  lemma SavingKeepsSums(db: Db, q: Payment)
    requires IsPayment(db, q.id) && SameMoney(db.payments[q.id], q) && SavePayment(db, q.id, q).Ok?
    requires q.status.Captured() == db.payments[q.id].status.Captured()
    ensures var db' := SavePayment(db, q.id, q).value;
      && Grows(db, db') && CapturesNothing(db, db')
      && forall b :: PaidSum(db'.payments, b) == PaidSum(db.payments, b)
  {
    var db' := SavePayment(db, q.id, q).value;
    if db' != db {
      forall b ensures PaidSum(db'.payments, b) == PaidSum(db.payments, b) {
        PaidSumAfterUpdate(db.payments, q.id, db'.payments[q.id], b);
      }
    }
  }

  lemma SavingKeepsRows(db: Db, q: Payment)
    requires RowsFit(db) && Unique(db)
    requires IsPayment(db, q.id) && SameMoney(db.payments[q.id], q) && SavePayment(db, q.id, q).Ok?
    ensures var db' := SavePayment(db, q.id, q).value; RowsFit(db') && Unique(db')
  {
    var db' := SavePayment(db, q.id, q).value;
    if db' != db {
      forall i, j | 0 <= i < j < |db'.payments| && db'.payments[i].intent.Some?
        ensures db'.payments[i].intent != db'.payments[j].intent
      {
        assert !IntentOfAnother(db, q.id, q.intent);
      }
    }
  }

  lemma FindByKeyFinds(payments: seq<Payment>, key: string)
    ensures var found := FindByKey(payments, key);
      if found.Some? then 0 <= found.value < |payments| && payments[found.value].key == key
      else forall i :: 0 <= i < |payments| ==> payments[i].key != key
  {
    if payments != [] && payments[|payments| - 1].key != key {
      FindByKeyFinds(payments[..|payments| - 1], key);
    }
  }

  lemma LiveBillFinds(bills: seq<Bill>, appointment: int)
    ensures var found := LiveBill(bills, appointment);
      if found.Some?
      then 0 <= found.value < |bills|
           && bills[found.value].appointment == appointment && bills[found.value].status != Void
      else forall i :: 0 <= i < |bills| ==> bills[i].appointment != appointment || bills[i].status == Void
  {
    if bills != [] && !(bills[|bills| - 1].appointment == appointment && bills[|bills| - 1].status != Void) {
      LiveBillFinds(bills[..|bills| - 1], appointment);
    }
  }

  lemma InsertingKeepsGood(db: Db, bill: int, kind: PaymentType, amount: Money, key: string)
    requires Good(db) && IsBill(db, bill) && InsertPayment(db, bill, kind, amount, key).Ok?
    ensures Good(InsertPayment(db, bill, kind, amount, key).value.db)
  {
    var db' := InsertPayment(db, bill, kind, amount, key).value.db;
    InsertingKeepsRows(db, bill, kind, amount, key);
    forall b | 0 <= b < |db.bills| ensures PaidSum(db'.payments, b) == PaidSum(db.payments, b) {
      PaidSumAfterInsert(db.payments, db'.payments[|db.payments|], b);
    }
    StatusesStay(db, db');
    CurrenciesStay(db, db');
    EventsStay(db, db');
  }

  lemma InsertingKeepsRows(db: Db, bill: int, kind: PaymentType, amount: Money, key: string)
    requires RowsFit(db) && Unique(db) && IsBill(db, bill) && InsertPayment(db, bill, kind, amount, key).Ok?
    ensures var db' := InsertPayment(db, bill, kind, amount, key).value.db;
      RowsFit(db') && Unique(db') && Grows(db, db') && CapturesNothing(db, db')
  {
    FindByKeyFinds(db.payments, key);
    hide FindByKey;
  }

  lemma OpeningKeepsGood(db: Db, appointment: int, customer: int, vehicle: int, currency: string)
    requires Good(db) && OpenBillTx(db, appointment, customer, vehicle, currency).Ok?
    ensures Good(OpenBillTx(db, appointment, customer, vehicle, currency).value.db)
  {
    var db' := OpenBillTx(db, appointment, customer, vehicle, currency).value.db;
    OpeningKeepsRows(db, appointment, customer, vehicle, currency);
    OpeningKeepsStatuses(db, db');
    CurrenciesStay(db, db');
    EventsStay(db, db');
    NewBillFits(|db.bills|, appointment, customer, vehicle, currency);
    hide RowsFit, CurrenciesFit, StatusesFit, EventsFit, Unique, LinesFit, LiveBill;
  }

  lemma NewBillFits(id: int, appointment: int, customer: int, vehicle: int, currency: string)
    ensures LinesFit(NewBill(id, appointment, customer, vehicle, currency))
  {
    assert AllLines([]) == 0;
  }

  lemma OpeningKeepsStatuses(db: Db, db': Db)
    requires RowsFit(db) && StatusesFit(db) && db'.payments == db.payments && db'.refunds == db.refunds
    requires |db'.bills| == |db.bills| + 1 && db'.bills[..|db.bills|] == db.bills
    requires db'.bills[|db.bills|].status == Open
    ensures StatusesFit(db')
  {
    forall b | 0 <= b < |db'.bills| ensures db'.bills[b].status == Standing(db', b).StatusFor(db'.bills[b]) {
      if b < |db.bills| {
        assert db'.bills[b] == db'.bills[..|db.bills|][b];
        RefundsStay(db, db', db.refunds, b);
      }
    }
  }

  lemma OpeningKeepsRows(db: Db, appointment: int, customer: int, vehicle: int, currency: string)
    requires RowsFit(db) && Unique(db) && OpenBillTx(db, appointment, customer, vehicle, currency).Ok?
    ensures var db' := OpenBillTx(db, appointment, customer, vehicle, currency).value.db; RowsFit(db') && Unique(db')
  {
    LiveBillFinds(db.bills, appointment);
  }

  /** Replacing one bill leaves the other bills' standing alone. */
  lemma ReplacingKeepsGood(db: Db, b: int, bill: Bill, e: Option<Event>)
    requires Good(db) && IsBill(db, b) && bill.id == b && LinesFit(bill)
    requires bill.currency == db.bills[b].currency && bill.appointment == db.bills[b].appointment
    requires bill.status == Void || db.bills[b].status != Void
    requires var db' := db.(bills := db.bills[b := bill]); bill.status == Standing(db', b).StatusFor(bill)
    requires e.Some? ==> !e.value.PaymentReceived?
    ensures Good(db.(bills := db.bills[b := bill], outbox := db.outbox + if e.Some? then [e.value] else []))
  {
    hide Good, LinesFit, Standing;
    var db' := db.(bills := db.bills[b := bill]);
    ReplacedIsGood(db, db', b, bill);
    var told := db'.(outbox := db.outbox + if e.Some? then [e.value] else []);
    if e.Some? {
      assert told.outbox == db'.outbox + [e.value];
    } else {
      assert told.outbox == db'.outbox;
    }
    BookkeepingKeepsGood(db', told);
  }

  lemma ReplacedIsGood(db: Db, db': Db, b: int, bill: Bill)
    requires Good(db) && IsBill(db, b) && bill.id == b && LinesFit(bill) && db' == db.(bills := db.bills[b := bill])
    requires bill.currency == db.bills[b].currency && bill.appointment == db.bills[b].appointment
    requires bill.status == Void || db.bills[b].status != Void
    requires bill.status == Standing(db', b).StatusFor(bill)
    ensures Good(db')
  {
    hide RowsFit, CurrenciesFit, StatusesFit, EventsFit, Unique, LinesFit, Standing;
    ReplacingKeepsRows(db, b, bill);
    ReplacingKeepsStatuses(db, b, bill);
    CurrenciesStay(db, db');
    EventsStay(db, db');
  }

  lemma ReplacingKeepsRows(db: Db, b: int, bill: Bill)
    requires RowsFit(db) && Unique(db) && IsBill(db, b) && bill.id == b
    requires bill.appointment == db.bills[b].appointment && (bill.status == Void || db.bills[b].status != Void)
    ensures var db' := db.(bills := db.bills[b := bill]); RowsFit(db') && Unique(db')
  {
  }

  lemma ReplacingKeepsStatuses(db: Db, b: int, bill: Bill)
    requires RowsFit(db) && StatusesFit(db) && IsBill(db, b)
    requires var db' := db.(bills := db.bills[b := bill]); bill.status == Standing(db', b).StatusFor(bill)
    ensures StatusesFit(db.(bills := db.bills[b := bill]))
  {
    var db' := db.(bills := db.bills[b := bill]);
    forall a | 0 <= a < |db.bills| && a != b ensures Standing(db', a) == Standing(db, a) {
      RefundsStay(db, db', db.refunds, a);
    }
  }

  // --- Apply and settle ---------------------------------------------------------------

  /** q records the success of a payment that was not captured before, and its bill settles. */
  ghost predicate Captures(db: Db, q: Payment) {
    && RowsFit(db) && CurrenciesFit(db) && IsPayment(db, q.id) && SameMoney(db.payments[q.id], q)
    && SavePayment(db, q.id, q).Ok?
    && q.status == Succeeded && !db.payments[q.id].status.Captured()
    && SettleTx(SavePayment(db, q.id, q).value, q.billId, q.id).Ok?
  }

  ghost function Saved(db: Db, q: Payment): Db
    requires Captures(db, q)
  {
    SavePayment(db, q.id, q).value
  }

  ghost function AfterCapture(db: Db, q: Payment): Db
    requires Captures(db, q)
  {
    SettleTx(Saved(db, q), q.billId, q.id).value
  }

  lemma CaptureIs(db: Db, q: Payment)
    requires Captures(db, q)
    ensures RowsFit(db) && CurrenciesFit(db) && IsPayment(db, q.id) && SameMoney(db.payments[q.id], q)
    ensures IsBill(db, q.billId) && SavePayment(db, q.id, q) == Ok(Saved(db, q))
    ensures Saved(db, q) == db.(payments := db.payments[q.id := q.(version := q.version + 1)])
    ensures SettleTx(Saved(db, q), q.billId, q.id) == Ok(AfterCapture(db, q))
    ensures q.status == Succeeded && !db.payments[q.id].status.Captured() && Grows(db, Saved(db, q))
  {
    hide SettleTx, CurrenciesFit, IntentOfAnother;
  }

  /** Recording a captured payment and settling its bill. */
  lemma CapturingKeepsGood(db: Db, q: Payment)
    requires Good(db) && Captures(db, q)
    ensures Good(AfterCapture(db, q))
  {
    hide RowsFit, CurrenciesFit, StatusesFit, EventsFit, Unique, LinesFit, Captures, AfterCapture;
    CapturingFitsStatuses(db, q);
    CapturingFitsEvents(db, q);
    CapturingFitsBills(db, q);
  }

  lemma CapturingFitsBills(db: Db, q: Payment)
    requires Captures(db, q) && Unique(db) && forall a :: 0 <= a < |db.bills| ==> LinesFit(db.bills[a])
    ensures var db' := AfterCapture(db, q);
      RowsFit(db') && Unique(db') && forall a :: 0 <= a < |db'.bills| ==> LinesFit(db'.bills[a])
  {
    hide SettleTx, RowsFit, CurrenciesFit, Unique, LinesFit, SavePayment, Captures, Saved, AfterCapture;
    CaptureIs(db, q);
    SavingKeepsRows(db, q);
    SettlingFitsBills(db, Saved(db, q), q.billId, q.id);
  }

  lemma SettlingFitsBills(db: Db, saved: Db, b: int, payment: int)
    requires RowsFit(saved) && Unique(saved) && IsBill(saved, b) && saved.bills == db.bills
    requires forall a :: 0 <= a < |db.bills| ==> LinesFit(db.bills[a])
    requires SettleTx(saved, b, payment).Ok?
    ensures var db' := SettleTx(saved, b, payment).value;
      RowsFit(db') && Unique(db') && forall a :: 0 <= a < |db'.bills| ==> LinesFit(db'.bills[a])
  {
    hide BalanceAt, RowsFit, Unique, LinesFit;
    SettleShape(saved, b, payment);
    RestatusKeepsBills(saved, SettleTx(saved, b, payment).value, b,
                       BalanceAt(saved, saved.bills[b]).value.StatusFor(saved.bills[b]));
  }

  lemma SettleShape(saved: Db, b: int, payment: int)
    requires IsBill(saved, b) && SettleTx(saved, b, payment).Ok?
    ensures var db' := SettleTx(saved, b, payment).value; var bill := saved.bills[b];
      && db'.payments == saved.payments && db'.refunds == saved.refunds
      && db'.bills == saved.bills[b := bill.(status := BalanceAt(saved, bill).value.StatusFor(bill))]
      && |db'.outbox| == |saved.outbox| + 1 && db'.outbox[|saved.outbox|].PaymentReceived?
      && db'.outbox[|saved.outbox|].payment == payment && db'.outbox == saved.outbox + [db'.outbox[|saved.outbox|]]
  {
  }

  lemma RestatusKeepsBills(db: Db, db': Db, b: int, status: BillStatus)
    requires RowsFit(db) && Unique(db) && IsBill(db, b)
    requires forall a :: 0 <= a < |db.bills| ==> LinesFit(db.bills[a])
    requires db'.bills == db.bills[b := db.bills[b].(status := status)] && db'.payments == db.payments
    requires db'.refunds == db.refunds
    requires status == db.bills[b].status || (db.bills[b].Priced() && status != Open && status != Void)
    ensures RowsFit(db') && Unique(db') && forall a :: 0 <= a < |db'.bills| ==> LinesFit(db'.bills[a])
  {
    forall a | 0 <= a < |db'.bills| ensures LinesFit(db'.bills[a]) {
      assert LinesFit(db.bills[a]);
    }
  }

  lemma CapturingFitsCurrency(db: Db, q: Payment)
    requires Captures(db, q)
    ensures q.amount.currency == db.bills[q.billId].currency
    ensures RowsFit(Saved(db, q)) && CurrenciesFit(Saved(db, q))
    ensures BalanceAt(Saved(db, q), db.bills[q.billId]) == Ok(Standing(Saved(db, q), q.billId))
  {
    CaptureIs(db, q);
    var saved := Saved(db, q);
    hide Captures, Saved, AfterCapture, SavePayment, Standing;
    BalanceIsTheSum(saved, q.billId, db.bills[q.billId]);
    assert CapturedIn(saved.payments[q.id], db.bills[q.billId]);
    forall i | 0 <= i < |saved.payments| ensures CapturedIn(saved.payments[i], saved.bills[saved.payments[i].billId]) {
      if i != q.id {
        assert CapturedIn(db.payments[i], db.bills[db.payments[i].billId]);
      }
    }
  }

  lemma CapturingFitsStatuses(db: Db, q: Payment)
    requires Captures(db, q) && StatusesFit(db)
    ensures StatusesFit(AfterCapture(db, q)) && RowsFit(AfterCapture(db, q)) && CurrenciesFit(AfterCapture(db, q))
  {
    CaptureIs(db, q);
    CapturingFitsCurrency(db, q);
    hide Captures, Saved, AfterCapture, SavePayment, SettleTx, BalanceAt, Standing, StatusesFit, CurrenciesFit;
    SettledFits(db, Saved(db, q), q);
  }

  lemma SettledFits(db: Db, saved: Db, q: Payment)
    requires RowsFit(db) && StatusesFit(db) && IsPayment(db, q.id) && RowsFit(saved) && CurrenciesFit(saved)
    requires db.payments[q.id].billId == q.billId && Grows(db, saved) && saved.bills == db.bills
    requires saved.payments == db.payments[q.id := q.(version := q.version + 1)]
    requires SettleTx(saved, q.billId, q.id).Ok?
    requires BalanceAt(saved, db.bills[q.billId]) == Ok(Standing(saved, q.billId))
    ensures var db' := SettleTx(saved, q.billId, q.id).value; StatusesFit(db') && RowsFit(db') && CurrenciesFit(db')
  {
    SettleShape(saved, q.billId, q.id);
    SettledStandings(db, saved, SettleTx(saved, q.billId, q.id).value, q);
  }

  lemma SettledStandings(db: Db, saved: Db, db': Db, q: Payment)
    requires RowsFit(db) && StatusesFit(db) && IsPayment(db, q.id) && RowsFit(saved) && CurrenciesFit(saved)
    requires db.payments[q.id].billId == q.billId && Grows(db, saved) && saved.bills == db.bills
    requires exists p: Payment :: p.billId == q.billId && saved.payments == db.payments[q.id := p]
    requires db'.payments == saved.payments && db'.refunds == saved.refunds
    requires var bill := db.bills[q.billId];
      db'.bills == db.bills[q.billId := bill.(status := Standing(saved, q.billId).StatusFor(bill))]
    ensures StatusesFit(db') && RowsFit(db') && CurrenciesFit(db')
  {
    RestatusedFits(saved, db', q.billId);
    hide CurrenciesFit;
    forall b | 0 <= b < |db.bills| ensures db'.bills[b].status == Standing(db', b).StatusFor(db'.bills[b]) {
      var p: Payment :| p.billId == q.billId && saved.payments == db.payments[q.id := p];
      PaidSumAfterUpdate(db.payments, q.id, p, b);
      RefundsStay(db, saved, db.refunds, b);
      RefundsStay(saved, db', db.refunds, b);
    }
  }

  lemma RestatusedFits(db: Db, db': Db, b: int)
    requires RowsFit(db) && CurrenciesFit(db) && IsBill(db, b)
    requires db'.payments == db.payments && db'.refunds == db.refunds && |db'.bills| == |db.bills|
    requires db'.bills == db.bills[b := db.bills[b].(status := db'.bills[b].status)]
    ensures RowsFit(db') && CurrenciesFit(db')
  {
  }

  lemma CapturingFitsEvents(db: Db, q: Payment)
    requires Captures(db, q) && EventsFit(db)
    ensures EventsFit(AfterCapture(db, q))
  {
    CaptureIs(db, q);
    hide Captures, Saved, AfterCapture, SavePayment, SettleTx, BalanceAt, RowsFit, CurrenciesFit;
    var saved, db' := Saved(db, q), AfterCapture(db, q);
    SettleShape(saved, q.billId, q.id);
    forall p
      ensures Received(db'.outbox, p) == if IsPayment(db', p) && db'.payments[p].status.Captured() then 1 else 0
    {
      ReceivedAfter(saved.outbox, db'.outbox[|saved.outbox|], p);
    }
  }

  lemma RecordKeepsGood(db: Db, next: Payment, found: Payment, notify: bool)
    requires Good(db) && IsPayment(db, next.id) && SameMoney(db.payments[next.id], next)
    requires !db.payments[next.id].status.Captured() && (next.status.Captured() ==> next.status == Succeeded)
    requires RecordTx(db, db.payments[next.id], next, found, notify).Ok?
    ensures Good(RecordTx(db, db.payments[next.id], next, found, notify).value)
  {
    var saved := SavePayment(db, next.id, next).value;
    if next.status == Succeeded {
      CapturingKeepsGood(db, next);
    } else {
      SavingKeepsGood(db, next);
      BookkeepingKeepsGood(saved, RecordTx(db, db.payments[next.id], next, found, notify).value);
    }
  }

  lemma MovedFits(linked: Payment, intent: Intent, now: int)
    ensures var next := Moved(linked, intent, now);
      && SameMoney(linked, next) && next.kind == linked.kind && next.version == linked.version
      && (next.status.Captured() ==> next.status == Succeeded || next.status == linked.status)
  {
  }

  lemma ApplyKeepsGood(db: Db, payment: int, found: Payment, intent: Intent, notify: bool, now: int)
    requires Good(db) && ApplyTx(db, payment, found, intent, notify, now).Ok?
    ensures Good(ApplyTx(db, payment, found, intent, notify, now).value)
  {
    var p := db.payments[payment];
    if !p.IsFinal() || (p.status == Canceled && intent.status == IntentSucceeded) {
      var linked := if p.intent.None? then p.(intent := Some(intent.id)) else p;
      var next := Moved(linked, intent, now);
      MovedFits(linked, intent, now);
      if !(next == linked && linked.intent == found.intent) {
        assert ApplyTx(db, payment, found, intent, notify, now) == RecordTx(db, p, next, found, notify);
        RecordKeepsGood(db, next, found, notify);
      }
    }
  }

  // --- Pricing ---------------------------------------------------------------------------

  lemma {:induction false} LinesAddUp(lines: seq<BillLine>)
    ensures LinesSum(lines, ServiceLine) + LinesSum(lines, MaterialLine) + LinesSum(lines, WarrantyFeeLine)
         == AllLines(lines)
  {
    if lines != [] {
      LinesAddUp(lines[..|lines| - 1]);
    }
  }

  /** What pricing writes, once its balance is known. */
  lemma PricingWrites(db: Db, b: int, lines: seq<BillLine>, now: int)
    requires IsBill(db, b) && db.bills[b].status == Open && PriceTx(db, b, lines, now).Ok?
    ensures var priced := Price(db.bills[b], lines, now); var db' := PriceTx(db, b, lines, now).value;
      && BalanceAt(db, priced).Ok?
      && |db'.bills| == |db.bills|
      && db'.bills[b] == priced.(status := BalanceAt(db, priced).value.StatusFor(priced)) && db'.bills[b].Priced()
      && exists e: Option<Event> :: WroteBill(db, db', b, e)
  {
    hide BalanceAt, LinesSum;
    var priced := Price(db.bills[b], lines, now);
    var balance := BalanceAt(db, priced).value;
    var db' := PriceTx(db, b, lines, now).value;
    var saved := db'.bills[b];
    var e: Option<Event> := if balance.Due() <= 0 then None
                            else Some(BillReady(b, saved.status, saved.Total(), balance.Held(), balance.Due()));
    assert db.outbox + [] == db.outbox;
    assert WroteBill(db, db', b, e);
  }

  /** From db to db' bill b was replaced and at most one event was written, which is about no payment. */
  ghost predicate WroteBill(db: Db, db': Db, b: int, e: Option<Event>)
    requires IsBill(db, b) && |db'.bills| == |db.bills|
  {
    && (e.Some? ==> !e.value.PaymentReceived?)
    && db' == db.(bills := db.bills[b := db'.bills[b]], outbox := db.outbox + if e.Some? then [e.value] else [])
  }

  lemma PricedBillFits(db: Db, b: int, lines: seq<BillLine>, now: int)
    requires RowsFit(db) && CurrenciesFit(db) && IsBill(db, b) && db.bills[b].status == Open
    requires PriceTx(db, b, lines, now).Ok?
    ensures |PriceTx(db, b, lines, now).value.bills| == |db.bills|
    ensures var bill := PriceTx(db, b, lines, now).value.bills[b];
      && bill.id == b && bill.currency == db.bills[b].currency && bill.appointment == db.bills[b].appointment
      && LinesFit(bill) && bill.Priced()
      && bill.status == Standing(db.(bills := db.bills[b := bill]), b).StatusFor(bill)
  {
    hide BalanceAt, PriceTx, Price, LinesSum, AllLines, CurrenciesFit;
    var priced := Price(db.bills[b], lines, now);
    PricedIsSized(db.bills[b], lines, now);
    PricingWrites(db, b, lines, now);
    PricedBalance(db, b, priced);
    var saved := PriceTx(db, b, lines, now).value.bills[b];
    RefundsStay(db, db.(bills := db.bills[b := saved]), db.refunds, b);
    hide RefundsOf, RefundedSum, PaidSum;
    assert BalanceAt(db, priced).value == Standing(db.(bills := db.bills[b := saved]), b);
  }

  lemma PricedBalance(db: Db, b: int, priced: Bill)
    requires RowsFit(db) && CurrenciesFit(db) && IsBill(db, b)
    requires priced.id == b && priced.currency == db.bills[b].currency
    requires priced.Priced() && BalanceAt(db, priced).Ok?
    ensures BalanceAt(db, priced).value
         == Balance(priced.Total(), PaidSum(db.payments, b), RefundedSum(RefundsOf(db, db.refunds, b)))
  {
    BalanceIsTheSum(db, b, priced);
    hide BalanceAt, PaidSum, RefundedSum, RefundsOf;
  }

  lemma PricedIsSized(bill: Bill, lines: seq<BillLine>, now: int)
    requires bill.status == Open
    ensures var priced := Price(bill, lines, now);
      && priced.id == bill.id && priced.currency == bill.currency && priced.appointment == bill.appointment
      && priced.Total() == AllLines(lines) && priced.lines == lines
      && priced.finalizedAt.Some? && priced.status == Pending
  {
    LinesAddUp(lines);
    hide LinesSum, AllLines;
  }

  lemma PricingKeepsGood(db: Db, b: int, c: Completion, inWarranty: bool, fee: int, now: int)
    requires Good(db) && PriceCompleted(db, b, c, inWarranty, fee, now).Ok?
    ensures Good(PriceCompleted(db, b, c, inWarranty, fee, now).value)
  {
    if db.bills[b].status == Open {
      var lines := PricedLines(c.services, inWarranty, fee);
      var db' := PriceTx(db, b, lines, now).value;
      PricedBillFits(db, b, lines, now);
      PricingWrites(db, b, lines, now);
      hide Good, PriceTx, Price, PricedLines, LinesFit, BalanceAt, Standing;
      var e: Option<Event> :| WroteBill(db, db', b, e);
      ReplacingKeepsGood(db, b, db'.bills[b], e);
    }
  }

  lemma CompletedKeepsGood(db: Db, source: string, eventId: string, c: Completion, inWarranty: bool, fee: int,
                           known: Option<AppointmentRef>, seen: Option<int>, now: int)
    requires Good(db) && CompletedTx(db, source, eventId, c, inWarranty, fee, known, seen, now).Ok?
    ensures Good(CompletedTx(db, source, eventId, c, inWarranty, fee, known, seen, now).value)
  {
    hide Good, PriceCompleted;
    if (source, eventId) !in db.processed {
      var noted := NoteCompleted(db, source, eventId, c, known);
      BookkeepingKeepsGood(db, noted);
      if seen.Some? {
        PricingKeepsGood(noted, seen.value, c, inWarranty, fee, now);
      } else {
        OpeningKeepsGood(noted, c.appointment, c.customer, c.vehicle, c.currency);
        var created := OpenBillTx(noted, c.appointment, c.customer, c.vehicle, c.currency).value;
        PricingKeepsGood(created.db, created.row, c, inWarranty, fee, now);
      }
    }
  }

  lemma CancelledKeepsGood(db: Db, source: string, eventId: string, booking: AppointmentRef,
                             known: Option<AppointmentRef>, seen: Option<int>)
    requires Good(db) && CancelledTx(db, source, eventId, booking, known, seen).Ok?
    ensures Good(CancelledTx(db, source, eventId, booking, known, seen).value)
  {
    var db' := CancelledTx(db, source, eventId, booking, known, seen).value;
    if db' != db {
      var marked := db.(processed := db'.processed, refs := db'.refs);
      BookkeepingKeepsGood(db, marked);
      if db'.bills != db.bills {
        var bill := db.bills[seen.value].(status := Void);
        ReplacingKeepsGood(marked, seen.value, bill, None);
        assert db.outbox + [] == db.outbox;
      }
    }
  }

  // --- Every run ------------------------------------------------------------------------------

  lemma FindOpenFinds(payments: seq<Payment>, kind: PaymentType, amount: Money)
    ensures var found := FindOpen(payments, kind, amount);
      found.Some? ==> exists i :: 0 <= i < |payments| && payments[i].id == found.value && payments[i].kind == kind
                        && payments[i].status == RequiresPayment && payments[i].amount == amount
  {
    if payments != [] && FindOpen(payments, kind, amount).Some?
      && !(payments[0].kind == kind && payments[0].status == RequiresPayment && payments[0].amount == amount)
    {
      FindOpenFinds(payments[1..], kind, amount);
      var i :| 0 <= i < |payments[1..]| && payments[1..][i].id == FindOpen(payments, kind, amount).value
        && payments[1..][i].kind == kind && payments[1..][i].status == RequiresPayment
        && payments[1..][i].amount == amount;
      assert payments[i + 1] == payments[1..][i];
    }
  }

  lemma DepositKeepsGood(db: Db, bill: int, amount: Money, key: string)
    requires Good(db) && DepositTx(db, bill, amount, key).Ok?
    ensures Good(DepositTx(db, bill, amount, key).value.db)
  {
    if DepositTx(db, bill, amount, key).value.db != db {
      InsertingKeepsGood(db, bill, Deposit, amount, key);
    }
  }

  lemma FinalKeepsGood(db: Db, bill: int, key: string)
    requires Good(db) && FinalTx(db, bill, key).Ok?
    ensures Good(FinalTx(db, bill, key).value.db)
  {
    if FinalTx(db, bill, key).value.db != db {
      InsertingKeepsGood(db, bill, Final, Money(Payable(db, db.bills[bill]).value, db.bills[bill].currency), key);
    }
  }

  lemma MarkFailedKeepsGood(db: Db, payment: int, code: string, message: string)
    requires Good(db) && MarkFailedTx(db, payment, code, message).Ok?
    ensures Good(MarkFailedTx(db, payment, code, message).value)
  {
    if MarkFailedTx(db, payment, code, message).value != db {
      SavingKeepsGood(db, db.payments[payment].(
        status := FailedPayment, failureCode := Some(code), failureMessage := Some(message)));
    }
  }

  lemma LinkKeepsGood(db: Db, payment: int, version: nat, intentId: string)
    requires Good(db) && LinkTx(db, payment, version, intentId).Ok?
    ensures Good(LinkTx(db, payment, version, intentId).value)
  {
    if LinkTx(db, payment, version, intentId).value != db {
      SavingKeepsGood(db, db.payments[payment].(intent := Some(intentId)));
    }
  }

  lemma WebhookKeepsGood(db: Db, eventId: string, intent: Intent, found: Payment, now: int)
    requires Good(db) && WebhookTx(db, eventId, intent, found, now).Ok?
    ensures Good(WebhookTx(db, eventId, intent, found, now).value)
  {
    if (STRIPE, eventId) !in db.processed {
      var marked := db.(processed := db.processed + {(STRIPE, eventId)});
      BookkeepingKeepsGood(db, marked);
      var payment := PaymentOfIntent(db, intent);
      if payment.Some? {
        ApplyKeepsGood(marked, payment.value, found, intent, true, now);
      }
    }
  }

  lemma ExecKeepsGood(db: Db, a: Action)
    requires Good(db)
    ensures Good(Exec(db, a))
  {
    hide Good, ApplyTx, WebhookTx, CompletedTx, CancelledTx, MarkFailedTx, LinkTx, OpenBillTx, DepositTx, FinalTx;
    if Transaction(db, a).Ok? {
      match a
      case OpenBill(appointment, customer, vehicle, currency) =>
        OpeningKeepsGood(db, appointment, customer, vehicle, currency);
      case RequestDeposit(bill, amount, key) => DepositKeepsGood(db, bill, amount, key);
      case PayBalance(bill, key) => FinalKeepsGood(db, bill, key);
      case MarkFailed(payment, code, message) => MarkFailedKeepsGood(db, payment, code, message);
      case Link(payment, version, intentId) => LinkKeepsGood(db, payment, version, intentId);
      case Observe(payment, found, intent, notify, now) => ApplyKeepsGood(db, payment, found, intent, notify, now);
      case Webhook(eventId, intent, found, now) => WebhookKeepsGood(db, eventId, intent, found, now);
      case OtherWebhook(eventId) => BookkeepingKeepsGood(db, Exec(db, a));
      case CopyBooking(booking) => BookkeepingKeepsGood(db, Exec(db, a));
      case BookedEvent(source, eventId, booking, known) => BookkeepingKeepsGood(db, Exec(db, a));
      case CancelledEvent(source, eventId, booking, known, seen) =>
        CancelledKeepsGood(db, source, eventId, booking, known, seen);
      case CompletedEvent(source, eventId, c, inWarranty, fee, known, seen, now) =>
        CompletedKeepsGood(db, source, eventId, c, inWarranty, fee, known, seen, now);
    }
  }

  lemma {:induction false} RunOneMore(db: Db, actions: seq<Action>, a: Action)
    ensures Run(db, actions + [a]) == Exec(Run(db, actions), a)
    decreases |actions|
  {
    if actions == [] {
      assert Run(Exec(db, a), []) == Exec(db, a);
    } else {
      assert (actions + [a])[1..] == actions[1..] + [a];
      RunOneMore(Exec(db, actions[0]), actions[1..], a);
    }
  }

  lemma {:induction false} RunThen(db: Db, actions: seq<Action>, more: seq<Action>)
    ensures Run(db, actions + more) == Run(Run(db, actions), more)
    decreases |actions|
  {
    if actions == [] {
      assert actions + more == more;
    } else {
      assert (actions + more)[1..] == actions[1..] + more;
      RunThen(Exec(db, actions[0]), actions[1..], more);
    }
  }

  lemma {:induction false} RunKeepsGood(db: Db, actions: seq<Action>)
    requires Good(db)
    ensures Good(Run(db, actions))
    decreases |actions|
  {
    if actions != [] {
      ExecKeepsGood(db, actions[0]);
      RunKeepsGood(Exec(db, actions[0]), actions[1..]);
    }
  }

  lemma EmptyIsGood()
    ensures Good(EMPTY)
  {
  }

  /** Some run of transactions from the empty database leads here. */
  ghost predicate Reached(db: Db) {
    exists actions: seq<Action> :: Run(EMPTY, actions) == db
  }

  lemma ReachedNext(db: Db, a: Action, next: Db)
    requires Reached(db) && Exec(db, a) == next
    ensures Reached(next)
  {
    hide Exec;
    var actions: seq<Action> :| Run(EMPTY, actions) == db;
    RunOneMore(EMPTY, actions, a);
  }

  lemma ReachedIsGood(db: Db)
    requires Reached(db)
    ensures Good(db)
  {
    var actions: seq<Action> :| Run(EMPTY, actions) == db;
    EmptyIsGood();
    RunKeepsGood(EMPTY, actions);
  }

  /** In every state of every run, whatever the provider answered and in whatever
      order: each bill's balance can be computed, each priced bill's stored status
      is the one its payments call for, its total is the sum of its lines, and what
      is held plus what is due less what is owed back is that total. */
  lemma StoredStatusIsDerived(actions: seq<Action>, b: int)
    requires IsBill(Run(EMPTY, actions), b)
    ensures var db := Run(EMPTY, actions); var bill := db.bills[b]; var balance := BalanceAt(db, bill);
      && balance.Ok?
      && bill.status == balance.value.StatusFor(bill)
      && bill.Total() == AllLines(bill.lines)
      && (bill.Priced() ==>
           && balance.value.Held() + balance.value.Due() - balance.value.RefundDue() == bill.Total()
           && (bill.status == Paid <==> balance.value.Due() == 0)
           && (bill.status == Pending <==> balance.value.Due() > 0 && balance.value.Held() <= 0)
           && (bill.status == PartiallyPaid <==> 0 < balance.value.Held() < bill.Total()))
  {
    EmptyIsGood();
    RunKeepsGood(EMPTY, actions);
    var db := Run(EMPTY, actions);
    StatusIsDerived(db, b);
    hide BalanceAt, AllLines, Good;
    if db.bills[b].Priced() {
      StatusMeans(db.bills[b], BalanceAt(db, db.bills[b]).value);
    }
  }

  lemma StatusIsDerived(db: Db, b: int)
    requires Good(db) && IsBill(db, b)
    ensures BalanceAt(db, db.bills[b]) == Ok(Standing(db, b))
    ensures db.bills[b].status == Standing(db, b).StatusFor(db.bills[b])
    ensures db.bills[b].Total() == AllLines(db.bills[b].lines)
  {
    BalanceIsTheSum(db, b, db.bills[b]);
    forall i | 0 <= i < |db.payments| ensures CapturedIn(db.payments[i], db.bills[b]) {
      assert CapturedIn(db.payments[i], db.bills[db.payments[i].billId]);
    }
    assert LinesFit(db.bills[b]);
  }
}
