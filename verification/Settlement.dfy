/** billing-service's transactions, each a function from database to database.

    A transaction that settles or decides a payment holds its bill's row lock, and
    linking an intent is guarded by the payment's version, so each is one step.
    What was read before (a payment, a bill's id, a version, the provider's answer,
    the stored copy of a booking, which no lock guards) comes in as a parameter that
    may be as stale as it likes. A transaction that throws is an Err and leaves the
    database alone. */
module Settlement {
  import opened Prelude
  import opened Balances

  datatype IntentStatus = IntentSucceeded | IntentProcessing | IntentCanceled | RequiresMethod | OtherStatus

  /** A payment intent as the provider answered. paymentId comes from its metadata. */
  datatype Intent = Intent(
    id: string, status: IntentStatus, failureCode: Option<string>, failureMessage: Option<string>,
    card: Option<string>, paymentId: Option<int>)

  datatype RefStatus = RefBooked | RefCancelled | RefCompleted

  /** Billing's copy of a booking. */
  datatype AppointmentRef = AppointmentRef(
    appointment: int, customer: int, vehicle: int, dealership: int, estimate: Money, status: RefStatus)

  datatype CompletedService = CompletedService(name: string, quantity: int, unitPrice: int)

  datatype Completion = Completion(
    appointment: int, customer: int, vehicle: int, dealership: int, currency: string, services: seq<CompletedService>)

  datatype Event =
    | BillReady(bill: int, status: BillStatus, total: int, held: int, balanceDue: int)
    | PaymentReceived(payment: int, bill: int, status: BillStatus, stillDue: Option<int>)
    | PaymentFailed(payment: int, code: Option<string>, message: Option<string>)

  /** Rows of bill and payment are known by their position, which is their id. */
  datatype Db = Db(
    bills: seq<Bill>, payments: seq<Payment>, refunds: seq<Refund>,
    refs: map<int, AppointmentRef>, processed: set<(string, string)>, outbox: seq<Event>)

  const EMPTY := Db([], [], [], map[], {}, [])

  /** The transaction's database and the row it answers with. */
  datatype Outcome = Outcome(db: Db, row: int)

  predicate IsBill(db: Db, id: int) {
    0 <= id < |db.bills|
  }

  predicate IsPayment(db: Db, id: int) {
    0 <= id < |db.payments|
  }

  function RefundsOf(db: Db, refunds: seq<Refund>, bill: int): seq<Refund> {
    if refunds == [] then []
    else
      var init := RefundsOf(db, refunds[..|refunds| - 1], bill);
      var last := refunds[|refunds| - 1];
      if IsPayment(db, last.paymentId) && db.payments[last.paymentId].billId == bill then init + [last] else init
  }

  function BalanceAt(db: Db, bill: Bill): Result<Balance, Error> {
    BalanceOf(bill, PaymentsOf(db.payments, bill.id), RefundsOf(db, db.refunds, bill.id))
  }

  // --- Payments ----------------------------------------------------------------

  predicate IntentOfAnother(db: Db, id: int, intent: Option<string>) {
    exists i :: 0 <= i < |db.payments| && i != id && intent.Some? && db.payments[i].intent == intent
  }

  /** Saves a changed payment over the version it was read in; the version counts the changes. */
  function SavePayment(db: Db, id: int, p: Payment): Result<Db, Error>
    requires IsPayment(db, id)
  {
    if p.version != db.payments[id].version then Err(StaleVersion)
    else if IntentOfAnother(db, id, p.intent) then Err(IntentTaken)
    else if p == db.payments[id] then Ok(db)
    else Ok(db.(payments := db.payments[id := p.(version := p.version + 1)]))
  }

  function FindByKey(payments: seq<Payment>, key: string): Option<int> {
    if payments == [] then None
    else if payments[|payments| - 1].key == key then Some(|payments| - 1)
    else FindByKey(payments[..|payments| - 1], key)
  }

  function FindByIntent(payments: seq<Payment>, intent: string): Option<int> {
    if payments == [] then None
    else if payments[|payments| - 1].intent == Some(intent) then Some(|payments| - 1)
    else FindByIntent(payments[..|payments| - 1], intent)
  }

  /** Payment.requested: a new row under an idempotency key that must be new too. */
  function InsertPayment(db: Db, bill: int, kind: PaymentType, amount: Money, key: string): Result<Outcome, Error> {
    if amount.minor <= 0 then Err(InvalidAmount)
    else if FindByKey(db.payments, key).Some? then Err(KeyTaken)
    else
      var id := |db.payments|;
      var p := Payment(id, bill, kind, amount, RequiresPayment, None, key, None, None, None, None, 0);
      Ok(Outcome(db.(payments := db.payments + [p]), id))
  }

  /** The first of the bill's payments that is still to be paid, for this amount and purpose. */
  function FindOpen(payments: seq<Payment>, kind: PaymentType, amount: Money): Option<int> {
    if payments == [] then None
    else if payments[0].kind == kind && payments[0].status == RequiresPayment && payments[0].amount == amount
    then Some(payments[0].id)
    else FindOpen(payments[1..], kind, amount)
  }

  predicate AnyDeposit(payments: seq<Payment>, captured: bool) {
    exists i :: 0 <= i < |payments| && payments[i].kind == Deposit
      && (if captured then payments[i].status.Captured() else payments[i].status == Processing)
  }

  /** The decision of requestDeposit, under the bill's lock. */
  function DepositTx(db: Db, bill: int, amount: Money, key: string): Result<Outcome, Error> {
    if !IsBill(db, bill) then Err(NotFound)
    else if db.bills[bill].status != Open then Err(AlreadyBilled)
    else
      var all := PaymentsOf(db.payments, bill);
      if AnyDeposit(all, true) then Err(AlreadyPaid)
      else if AnyDeposit(all, false) then Err(StillProcessing)
      else
        var open := FindOpen(all, Deposit, amount);
        if open.Some? then Ok(Outcome(db, open.value)) else InsertPayment(db, bill, Deposit, amount, key)
  }

  /** The balance due on a bill that can take a payment now. */
  function Payable(db: Db, bill: Bill): Result<int, Error> {
    var all := PaymentsOf(db.payments, bill.id);
    if bill.status != Pending && bill.status != PartiallyPaid then Err(BillTakesNoPayment)
    else if exists i :: 0 <= i < |all| && all[i].status == Processing then Err(StillProcessing)
    else
      var balance := BalanceAt(db, bill);
      if balance.Err? then Err(balance.error)
      else if balance.value.Due() <= 0 then Err(NothingDue)
      else Ok(balance.value.Due())
  }

  /** Step 3 of payBalance, under the bill's lock. */
  function FinalTx(db: Db, bill: int, key: string): Result<Outcome, Error> {
    if !IsBill(db, bill) then Err(NotFound)
    else
      var due := Payable(db, db.bills[bill]);
      if due.Err? then Err(due.error)
      else
        var amount := Money(due.value, db.bills[bill].currency);
        var open := FindOpen(PaymentsOf(db.payments, bill), Final, amount);
        if open.Some? then Ok(Outcome(db, open.value)) else InsertPayment(db, bill, Final, amount, key)
  }

  /** markFailed: only while no intent exists to be charged. */
  function MarkFailedTx(db: Db, payment: int, code: string, message: string): Result<Db, Error> {
    if !IsPayment(db, payment) then Err(NotFound)
    else
      var p := db.payments[payment];
      if p.IsFinal() || p.intent.Some? then Ok(db)
      else
        var failed := p.(status := FailedPayment, failureCode := Some(code), failureMessage := Some(message));
        SavePayment(db, payment, failed)
  }

  /** The link of a payment to its new intent, unless it has one. No lock is held: version is the payment's
      when it was read, and a change since then turns the save away. */
  function LinkTx(db: Db, payment: int, version: nat, intent: string): Result<Db, Error> {
    if !IsPayment(db, payment) then Err(NotFound)
    else if db.payments[payment].version != version then Err(StaleVersion)
    else if db.payments[payment].intent.Some? then Ok(db)
    else SavePayment(db, payment, db.payments[payment].(intent := Some(intent)))
  }

  /** Where the intent's status moves the payment. */
  function Moved(p: Payment, intent: Intent, now: int): Payment {
    match intent.status
    case IntentSucceeded =>
      p.(status := Succeeded, failureCode := None, failureMessage := None, card := intent.card,
         succeededAt := Some(now))
    case IntentProcessing => p.(status := Processing, failureCode := None, failureMessage := None)
    case IntentCanceled =>
      p.(status := Canceled, failureCode := intent.failureCode, failureMessage := intent.failureMessage)
    case RequiresMethod =>
      if intent.failureCode.None? then p
      else p.(status := RequiresPayment, failureCode := intent.failureCode, failureMessage := intent.failureMessage)
    case OtherStatus => p
  }

  /** Recomputes the bill after a success and announces it. */
  function SettleTx(db: Db, bill: int, payment: int): Result<Db, Error>
    requires IsBill(db, bill)
  {
    var balance := BalanceAt(db, db.bills[bill]);
    if balance.Err? then Err(balance.error)
    else
      var updated := db.bills[bill].(status := balance.value.StatusFor(db.bills[bill]));
      var received := PaymentReceived(payment, bill, updated.status,
                                      if updated.status == Open then None else Some(balance.value.Due()));
      Ok(db.(bills := db.bills[bill := updated], outbox := db.outbox + [received]))
  }

  /** Saves where the intent moved payment p, and says so: a success settles the bill, a new decline is published. */
  function RecordTx(db: Db, p: Payment, next: Payment, found: Payment, notify: bool): Result<Db, Error>
    requires IsPayment(db, p.id) && IsBill(db, p.billId)
  {
    var saved := SavePayment(db, p.id, next);
    if saved.Err? then saved
    else if next.status == Succeeded && p.status != Succeeded then SettleTx(saved.value, p.billId, p.id)
    else if notify && next.status == RequiresPayment && next.failureCode.Some?
      && !(next.failureCode == found.failureCode && next.failureMessage == found.failureMessage)
    then Ok(saved.value.(outbox := saved.value.outbox + [PaymentFailed(p.id, next.failureCode, next.failureMessage)]))
    else saved
  }

  /** apply: found is the payment as read before the bill was locked. */
  function ApplyTx(db: Db, payment: int, found: Payment, intent: Intent, notify: bool, now: int): Result<Db, Error> {
    if !IsPayment(db, payment) || !IsBill(db, db.payments[payment].billId) then Err(NotFound)
    else
      var p := db.payments[payment].(id := payment);
      if p.IsFinal() && !(p.status == Canceled && intent.status == IntentSucceeded) then Ok(db)
      else
        var linked := if p.intent.None? then p.(intent := Some(intent.id)) else p;
        var next := Moved(linked, intent, now);
        if next == linked && linked.intent == found.intent then Ok(db) else RecordTx(db, p, next, found, notify)
  }

  /** Which of our payments a webhook's intent is about. */
  function PaymentOfIntent(db: Db, intent: Intent): Option<int> {
    var byIntent := FindByIntent(db.payments, intent.id);
    if byIntent.Some? then byIntent
    else if intent.paymentId.Some? && IsPayment(db, intent.paymentId.value) then intent.paymentId
    else None
  }

  const STRIPE := "stripe"

  /** A webhook of a payment intent, which was re-read from the provider before the transaction. */
  function WebhookTx(db: Db, eventId: string, intent: Intent, found: Payment, now: int): Result<Db, Error> {
    if (STRIPE, eventId) in db.processed then Ok(db)
    else
      var marked := db.(processed := db.processed + {(STRIPE, eventId)});
      var payment := PaymentOfIntent(db, intent);
      if payment.None? then Ok(marked) else ApplyTx(marked, payment.value, found, intent, true, now)
  }

  // --- Bills -------------------------------------------------------------------

  function LiveBill(bills: seq<Bill>, appointment: int): Option<int> {
    if bills == [] then None
    else if bills[|bills| - 1].appointment == appointment && bills[|bills| - 1].status != Void then Some(|bills| - 1)
    else LiveBill(bills[..|bills| - 1], appointment)
  }

  function NewBill(id: int, appointment: int, customer: int, vehicle: int, currency: string): Bill {
    Bill(id, appointment, customer, vehicle, currency, 0, 0, 0, Open, None, [])
  }

  /** Bill.open: at most one live bill per appointment. */
  function OpenBillTx(db: Db, appointment: int, customer: int, vehicle: int, currency: string): Result<Outcome, Error> {
    if LiveBill(db.bills, appointment).Some? then Err(LiveBillExists)
    else
      var added := NewBill(|db.bills|, appointment, customer, vehicle, currency);
      Ok(Outcome(db.(bills := db.bills + [added]), |db.bills|))
  }

  function LinesSum(lines: seq<BillLine>, kind: LineKind): int {
    if lines == [] then 0
    else
      LinesSum(lines[..|lines| - 1], kind)
      + (if lines[|lines| - 1].kind == kind then lines[|lines| - 1].quantity * lines[|lines| - 1].unitPrice else 0)
  }

  function AllLines(lines: seq<BillLine>): int {
    if lines == [] then 0
    else AllLines(lines[..|lines| - 1]) + lines[|lines| - 1].quantity * lines[|lines| - 1].unitPrice
  }

  /** The lines of a bill: the warranty fee if the vehicle is not covered, then the services. */
  function PricedLines(services: seq<CompletedService>, inWarranty: bool, fee: int): seq<BillLine> {
    (if !inWarranty && fee > 0 then [BillLine(WarrantyFeeLine, "Warranty/expiration fee", 1, fee)] else [])
    + seq(|services|, i requires 0 <= i < |services| =>
        BillLine(ServiceLine, services[i].name, services[i].quantity, services[i].unitPrice))
  }

  function Price(bill: Bill, lines: seq<BillLine>, now: int): Bill {
    bill.(warrantyFee := LinesSum(lines, WarrantyFeeLine), serviceFee := LinesSum(lines, ServiceLine),
          materialCost := LinesSum(lines, MaterialLine), status := Pending, finalizedAt := Some(now), lines := lines)
  }

  /** The estimate a completion implies. */
  function EstimateOf(services: seq<CompletedService>): int {
    if services == [] then 0
    else EstimateOf(services[..|services| - 1]) + services[|services| - 1].unitPrice * services[|services| - 1].quantity
  }

  predicate ValidServices(services: seq<CompletedService>) {
    forall i :: 0 <= i < |services| ==> services[i].quantity > 0 && services[i].unitPrice >= 0
  }

  // --- Scheduler's events ---------------------------------------------------------

  function KnownRef(refs: map<int, AppointmentRef>, appointment: int): Option<AppointmentRef> {
    if appointment in refs then Some(refs[appointment]) else None
  }

  /** AppointmentBooked: keeps a booking that has ended, if known is what is stored. known is the
      stored copy as a plain select read it; the upsert that follows overwrites whatever is there by then. */
  function BookedTx(db: Db, source: string, eventId: string, booking: AppointmentRef,
                    known: Option<AppointmentRef>): Db
  {
    if (source, eventId) in db.processed then db
    else
      var marked := db.(processed := db.processed + {(source, eventId)});
      if known.None? || known.value.status == RefBooked
      then marked.(refs := marked.refs[booking.appointment := booking])
      else marked
  }

  /** AppointmentCancelled: seen is the live bill as read before the transaction. */
  function CancelledTx(db: Db, source: string, eventId: string, booking: AppointmentRef, known: Option<AppointmentRef>,
                       seen: Option<int>): Result<Db, Error>
  {
    if (source, eventId) in db.processed then Ok(db)
    else
      var id := booking.appointment;
      var ref := if known.Some? then known.value else booking;
      var marked := db.(processed := db.processed + {(source, eventId)},
                        refs := db.refs[id := ref.(status := RefCancelled)]);
      if seen.None? then Ok(marked)
      else if !IsBill(db, seen.value) then Err(NotFound)
      else
        var bill := db.bills[seen.value];
        var all := PaymentsOf(db.payments, seen.value);
        if bill.status != Open
          || exists i :: 0 <= i < |all| && (all[i].status.Captured() || all[i].status == Processing)
        then Ok(marked)
        else Ok(marked.(bills := db.bills[seen.value := bill.(status := Void)]))
  }

  /** The pricing of an OPEN bill, with whatever was paid toward it already. */
  function PriceTx(db: Db, id: int, lines: seq<BillLine>, now: int): Result<Db, Error>
    requires IsBill(db, id)
  {
    var priced := Price(db.bills[id], lines, now);
    var balance := BalanceAt(db, priced);
    if balance.Err? then Err(balance.error)
    else
      var saved := priced.(status := balance.value.StatusFor(priced));
      var db' := db.(bills := db.bills[id := saved]);
      if balance.value.Due() <= 0 then Ok(db')
      else Ok(db'.(outbox := db'.outbox
                + [BillReady(id, saved.status, saved.Total(), balance.value.Held(), balance.value.Due())]))
  }

  /** The event is marked processed and the booking's copy completed. */
  function NoteCompleted(db: Db, source: string, eventId: string, c: Completion, known: Option<AppointmentRef>): Db {
    var ref := if known.Some? then known.value.(status := RefCompleted)
               else AppointmentRef(c.appointment, c.customer, c.vehicle, c.dealership,
                                   Money(EstimateOf(c.services), c.currency), RefCompleted);
    db.(processed := db.processed + {(source, eventId)}, refs := db.refs[c.appointment := ref])
  }

  /** What a completion does to its bill, once locked: only an OPEN one is priced. */
  function PriceCompleted(db: Db, id: int, c: Completion, inWarranty: bool, fee: int, now: int): Result<Db, Error> {
    if !IsBill(db, id) then Err(NotFound)
    else if db.bills[id].status != Open then Ok(db)
    else if db.bills[id].currency != c.currency then Err(CurrencyMismatch)
    else if !ValidServices(c.services) then Err(InvalidLine)
    else PriceTx(db, id, PricedLines(c.services, inWarranty, fee), now)
  }

  /** ServiceCompleted: seen is the live bill as read before it was locked; None opens one. */
  function CompletedTx(db: Db, source: string, eventId: string, c: Completion, inWarranty: bool, fee: int,
                       known: Option<AppointmentRef>, seen: Option<int>, now: int): Result<Db, Error>
  {
    if (source, eventId) in db.processed then Ok(db)
    else if EstimateOf(c.services) < 0 then Err(InvalidAmount)
    else
      var noted := NoteCompleted(db, source, eventId, c, known);
      if seen.Some? then PriceCompleted(noted, seen.value, c, inWarranty, fee, now)
      else
        var created := OpenBillTx(noted, c.appointment, c.customer, c.vehicle, c.currency);
        if created.Err? then Err(created.error)
        else PriceCompleted(created.value.db, created.value.row, c, inWarranty, fee, now)
  }

  // --- Runs ----------------------------------------------------------------------

  datatype Action =
    | OpenBill(appointment: int, customer: int, vehicle: int, currency: string)
    | RequestDeposit(bill: int, amount: Money, key: string)
    | PayBalance(bill: int, key: string)
    | MarkFailed(payment: int, code: string, message: string)
    | Link(payment: int, version: nat, intentId: string)
    | Observe(payment: int, found: Payment, intent: Intent, notify: bool, now: int)
    | Webhook(eventId: string, intent: Intent, found: Payment, now: int)
    | OtherWebhook(eventId: string)
    | CopyBooking(booking: AppointmentRef)
    | BookedEvent(source: string, eventId: string, booking: AppointmentRef, known: Option<AppointmentRef>)
    | CancelledEvent(source: string, eventId: string, booking: AppointmentRef, known: Option<AppointmentRef>,
                     seen: Option<int>)
    | CompletedEvent(source: string, eventId: string, completion: Completion, inWarranty: bool, fee: int,
                     known: Option<AppointmentRef>, seen: Option<int>, now: int)

  function Transaction(db: Db, a: Action): Result<Db, Error> {
    match a
    case OpenBill(appointment, customer, vehicle, currency) =>
      Only(OpenBillTx(db, appointment, customer, vehicle, currency))
    case RequestDeposit(bill, amount, key) => Only(DepositTx(db, bill, amount, key))
    case PayBalance(bill, key) => Only(FinalTx(db, bill, key))
    case MarkFailed(payment, code, message) => MarkFailedTx(db, payment, code, message)
    case Link(payment, version, intentId) => LinkTx(db, payment, version, intentId)
    case Observe(payment, found, intent, notify, now) => ApplyTx(db, payment, found, intent, notify, now)
    case Webhook(eventId, intent, found, now) => WebhookTx(db, eventId, intent, found, now)
    case OtherWebhook(eventId) => Ok(db.(processed := db.processed + {(STRIPE, eventId)}))
    case CopyBooking(booking) => Ok(db.(refs := db.refs[booking.appointment := booking]))
    case BookedEvent(source, eventId, booking, known) => Ok(BookedTx(db, source, eventId, booking, known))
    case CancelledEvent(source, eventId, booking, known, seen) => CancelledTx(db, source, eventId, booking, known, seen)
    case CompletedEvent(source, eventId, c, inWarranty, fee, known, seen, now) =>
      CompletedTx(db, source, eventId, c, inWarranty, fee, known, seen, now)
  }

  function Only(r: Result<Outcome, Error>): Result<Db, Error> {
    if r.Ok? then Ok(r.value.db) else Err(r.error)
  }

  /** A transaction that throws is rolled back. */
  function Exec(db: Db, a: Action): Db {
    var r := Transaction(db, a);
    if r.Ok? then r.value else db
  }

  function Run(db: Db, actions: seq<Action>): Db
    decreases |actions|
  {
    if actions == [] then db else Run(Exec(db, actions[0]), actions[1..])
  }
}
