/** Payments and Bookings as their methods run, over tables updated in place. */
module BillingService {
  import opened Prelude
  import opened Balances
  import opened Settlement
  import opened SettlementRuns
  import opened SettlementOutcomes
  import opened BalanceRequests
  import opened Decisions
  import BookingEvents

  /** The tables of billing's database. */
  class Store {
    var bills: seq<Bill>
    var payments: seq<Payment>
    var refunds: seq<Refund>
    var refs: map<int, AppointmentRef>
    var processed: set<(string, string)>
    var outbox: seq<Event>

    constructor ()
      ensures Contents() == EMPTY
    {
      bills, payments, refunds, refs, processed, outbox := [], [], [], map[], {}, [];
    }

    function Contents(): Db
      reads this
    {
      Db(bills, payments, refunds, refs, processed, outbox)
    }

    /** What a rollback does. */
    method RollBack(before: Db)
      modifies this
      ensures Contents() == before
    {
      bills, payments, refunds := before.bills, before.payments, before.refunds;
      refs, processed, outbox := before.refs, before.processed, before.outbox;
    }

    /** Inserts the event's id, and says whether that was new. */
    method MarkProcessed(source: string, eventId: string) returns (isNew: bool)
      modifies this`processed
      ensures isNew == ((source, eventId) !in old(processed))
      ensures processed == old(processed) + {(source, eventId)}
      ensures !isNew ==> processed == old(processed)
    {
      isNew := (source, eventId) !in processed;
      if isNew {
        processed := processed + {(source, eventId)};
      }
    }

    /** Refuses a payment that was read in an older version, and another row's intent; the version grows only
        if something changed. */
    method UpdatePayment(id: int, p: Payment) returns (r: Result<(), Error>)
      requires 0 <= id < |payments|
      modifies this`payments
      ensures var saved := SavePayment(old(Contents()), id, p);
        if saved.Ok? then r == Ok(()) && Contents() == saved.value
        else r == Err(saved.error) && Contents() == old(Contents())
    {
      if p.version != payments[id].version {
        return Err(StaleVersion);
      }
      if IntentOfAnother(Contents(), id, p.intent) {
        return Err(IntentTaken);
      }
      if p != payments[id] {
        payments := payments[id := p.(version := p.version + 1)];
      }
      return Ok(());
    }

    method AddPayment(bill: int, kind: PaymentType, amount: Money, key: string) returns (r: Result<int, Error>)
      modifies this`payments
      ensures var tx := InsertPayment(old(Contents()), bill, kind, amount, key);
        if tx.Ok? then r == Ok(tx.value.row) && Contents() == tx.value.db
        else r == Err(tx.error) && Contents() == old(Contents())
    {
      if amount.minor <= 0 {
        return Err(InvalidAmount);
      }
      if FindByKey(payments, key).Some? {
        return Err(KeyTaken);
      }
      var id := |payments|;
      payments := payments + [Payment(id, bill, kind, amount, RequiresPayment, None, key, None, None, None, None, 0)];
      return Ok(id);
    }

    method AddBill(appointment: int, customer: int, vehicle: int, currency: string) returns (r: Result<int, Error>)
      modifies this`bills
      ensures var tx := OpenBillTx(old(Contents()), appointment, customer, vehicle, currency);
        if tx.Ok? then r == Ok(tx.value.row) && Contents() == tx.value.db
        else r == Err(tx.error) && Contents() == old(Contents())
    {
      if LiveBill(bills, appointment).Some? {
        return Err(LiveBillExists);
      }
      var id := |bills|;
      bills := bills + [NewBill(id, appointment, customer, vehicle, currency)];
      return Ok(id);
    }

    method Publish(e: Event)
      modifies this`outbox
      ensures outbox == old(outbox) + [e]
    {
      outbox := outbox + [e];
    }

    method BalanceFor(bill: Bill) returns (r: Result<Balance, Error>)
      ensures r == BalanceAt(Contents(), bill)
    {
      r := ComputeBalance(bill, PaymentsOf(payments, bill.id), RefundsOf(Contents(), refunds, bill.id));
    }
  }

  /** What resume does to a payment: nothing if it is over or has its intent, else it notes how creating one went. */
  function Resumption(db: Db, payment: Payment, created: Result<string, string>): seq<Action> {
    if payment.IsFinal() || payment.status == FailedPayment || payment.intent.Some? then []
    else if created.Err? then [MarkFailed(payment.id, "provider_error", created.error)]
    else [Link(payment.id, if IsPayment(db, payment.id) then db.payments[payment.id].version else 0, created.value)]
  }

  /** payment is the row as it is stored. */
  predicate IsStored(db: Db, payment: Payment) {
    0 <= payment.id < |db.payments| && db.payments[payment.id] == payment
  }

  /** q is stored payment p after resume, and r what resume answers. A payment that is over, or was given up, is
      handed back as it is. Any other has its first intent in the end, the one that was created if there was none;
      if none was created it is FAILED, and if that one is another payment's, nothing changes. */
  predicate Resumed(db: Db, p: Payment, q: Payment, created: Result<string, string>, r: Result<(), Error>) {
    if p.status !in {RequiresPayment, Processing} || p.intent.Some? then q == p && r == Ok(())
    else if created.Err? then
      && r == Err(ProviderUnavailable)
      && q.failureCode.Some?
      && q == p.(status := FailedPayment, failureCode := q.failureCode, failureMessage := Some(created.error),
                 version := p.version + 1)
    else if exists i :: 0 <= i < |db.payments| && db.payments[i].intent == Some(created.value)
    then q == p && r == Err(IntentTaken)
    else r == Ok(()) && q == p.(intent := Some(created.value), version := p.version + 1)
  }

  /** A payment that its customer can still make has its intent. */
  predicate CanBeMade(payments: seq<Payment>, row: int) {
    0 <= row < |payments| && (payments[row].status in {RequiresPayment, Processing} ==> payments[row].intent.Some?)
  }

  /** What requestDeposit stores before it decides: the booking it had to fetch, and the bill it had to open. */
  function Preparation(db: Db, id: int, booking: AppointmentRef): seq<Action> {
    CopyIfNew(db, id, booking) + OpenIfNone(db, id, booking)
  }

  function CopyIfNew(db: Db, id: int, booking: AppointmentRef): seq<Action> {
    if id in db.refs then [] else [CopyBooking(booking)]
  }

  function OpenIfNone(db: Db, id: int, booking: AppointmentRef): seq<Action> {
    if LiveBill(db.bills, id).Some? then []
    else [OpenBill(id, booking.customer, booking.vehicle, booking.estimate.currency)]
  }

  /** The bill a deposit for this appointment goes to. */
  function BillToPay(db: Db, appointment: int): int {
    var live := LiveBill(db.bills, appointment);
    if live.Some? then live.value else |db.bills|
  }

  /** The booking is known; and the appointment has the live bill it had, or else a new OPEN one for the booking's
      customer and vehicle, in its currency. */
  ghost predicate HasItsBill(db: Db, db': Db, appointment: int, booking: AppointmentRef) {
    && db'.refs == db.refs[appointment := booking]
    && if exists b :: 0 <= b < |db.bills| && IsLive(db.bills[b], appointment) then db'.bills == db.bills
       else
         && |db'.bills| == |db.bills| + 1 && db'.bills[..|db.bills|] == db.bills
         && var bill := db'.bills[|db.bills|];
            && bill.id == |db.bills| && bill.appointment == appointment && bill.status == Open
            && bill.customer == booking.customer && bill.vehicle == booking.vehicle
            && bill.currency == booking.estimate.currency && bill.lines == [] && bill.Total() == 0
  }

  predicate IsLive(bill: Bill, appointment: int) {
    bill.appointment == appointment && bill.status != Void
  }

  class Payments {
    const store: Store

    constructor (store: Store)
      ensures this.store == store
    {
      this.store := store;
    }

    /** The decision of requestDeposit. */
    method DecideDeposit(bill: int, amount: Money, key: string) returns (r: Result<int, Error>)
      modifies store
      ensures var tx := DepositTx(old(store.Contents()), bill, amount, key);
        if tx.Ok? then r == Ok(tx.value.row) && store.Contents() == tx.value.db
        else r == Err(tx.error) && store.Contents() == old(store.Contents())
    {
      if bill < 0 || bill >= |store.bills| {
        return Err(NotFound);
      }
      if store.bills[bill].status != Open {
        return Err(AlreadyBilled);
      }
      var all := PaymentsOf(store.payments, bill);
      if AnyDeposit(all, true) {
        return Err(AlreadyPaid);
      }
      if AnyDeposit(all, false) {
        return Err(StillProcessing);
      }
      var open := FindOpen(all, Deposit, amount);
      if open.Some? {
        return Ok(open.value);
      }
      r := store.AddPayment(bill, Deposit, amount, key);
    }

    /** Fails unless a priced bill has a positive balance and nothing in flight. */
    method RequirePayable(bill: Bill) returns (r: Result<int, Error>)
      ensures r == Payable(store.Contents(), bill)
    {
      if bill.status != Pending && bill.status != PartiallyPaid {
        return Err(BillTakesNoPayment);
      }
      var all := PaymentsOf(store.payments, bill.id);
      if exists i :: 0 <= i < |all| && all[i].status == Processing {
        return Err(StillProcessing);
      }
      var balance := store.BalanceFor(bill);
      if balance.Err? {
        return Err(balance.error);
      }
      if balance.value.Due() <= 0 {
        return Err(NothingDue);
      }
      return Ok(balance.value.Due());
    }

    /** Step 3 of payBalance: the balance may have moved since step 1. */
    method DecideFinal(bill: int, key: string) returns (r: Result<int, Error>)
      modifies store
      ensures var tx := FinalTx(old(store.Contents()), bill, key);
        if tx.Ok? then r == Ok(tx.value.row) && store.Contents() == tx.value.db
        else r == Err(tx.error) && store.Contents() == old(store.Contents())
    {
      if bill < 0 || bill >= |store.bills| {
        return Err(NotFound);
      }
      var locked := store.bills[bill];
      var due := RequirePayable(locked);
      if due.Err? {
        return Err(due.error);
      }
      var amount := Money(due.value, locked.currency);
      var open := FindOpen(PaymentsOf(store.payments, bill), Final, amount);
      if open.Some? {
        return Ok(open.value);
      }
      r := store.AddPayment(bill, Final, amount, key);
    }

    /** Fails a payment that never reached the provider; one that did, or is over, is left alone. */
    method MarkFailed(payment: int, code: string, message: string) returns (r: Result<(), Error>)
      modifies store
      ensures var tx := MarkFailedTx(old(store.Contents()), payment, code, message);
        if tx.Ok? then r == Ok(()) && store.Contents() == tx.value
        else r == Err(tx.error) && store.Contents() == old(store.Contents())
      ensures r.Ok? ==>
        && IsPayment(old(store.Contents()), payment) && IsPayment(store.Contents(), payment)
        && var before, after := old(store.payments)[payment], store.payments[payment];
           if before.IsFinal() || before.intent.Some? then after == before
           else after.status == FailedPayment && after.intent.None?
    {
      if payment < 0 || payment >= |store.payments| {
        return Err(NotFound);
      }
      var current := store.payments[payment];
      if current.IsFinal() || current.intent.Some? {
        return Ok(());
      }
      r := store.UpdatePayment(payment, current.(
        status := FailedPayment, failureCode := Some(code), failureMessage := Some(message)));
    }

    /** The end of resume. No lock is held; the version that was read guards the save. An
        intent that a payment was linked to never changes. */
    method Link(payment: int, version: nat, intent: string) returns (r: Result<(), Error>)
      modifies store
      ensures var tx := LinkTx(old(store.Contents()), payment, version, intent);
        if tx.Ok? then r == Ok(()) && store.Contents() == tx.value
        else r == Err(tx.error) && store.Contents() == old(store.Contents())
      ensures |store.payments| == |old(store.payments)| && forall i :: 0 <= i < |store.payments| ==>
        old(store.payments)[i].intent.Some? ==> store.payments[i] == old(store.payments)[i]
      ensures r.Ok? ==> IsPayment(store.Contents(), payment) && store.payments[payment].intent.Some?
      ensures var before := old(store.payments);
        if payment < 0 || payment >= |before| then r == Err(NotFound)
        else if before[payment].version != version then r == Err(StaleVersion) && store.payments == before
        else if before[payment].intent.Some? then r == Ok(()) && store.payments == before
        else if exists i :: 0 <= i < |before| && before[i].intent == Some(intent)
        then r == Err(IntentTaken) && store.payments == before
        else r == Ok(()) && store.payments
             == before[payment := before[payment].(intent := Some(intent), version := version + 1)]
    {
      if payment < 0 || payment >= |store.payments| {
        return Err(NotFound);
      }
      var current := store.payments[payment];
      if current.version != version {
        return Err(StaleVersion);
      }
      if current.intent.Some? {
        return Ok(());
      }
      r := store.UpdatePayment(payment, current.(intent := Some(intent)));
    }

    /** Recomputes the bill after a success and announces it. */
    method Settle(bill: int, payment: int) returns (r: Result<(), Error>)
      requires 0 <= bill < |store.bills|
      modifies store
      ensures var tx := SettleTx(old(store.Contents()), bill, payment);
        if tx.Ok? then r == Ok(()) && store.Contents() == tx.value else r == Err(tx.error)
    {
      hide BalanceAt;
      var locked := store.bills[bill];
      var balance := store.BalanceFor(locked);
      if balance.Err? {
        return Err(balance.error);
      }
      var status := balance.value.StatusFor(locked);
      var updated := locked;
      if status != locked.status {
        updated := locked.(status := status);
        store.bills := store.bills[bill := updated];
      }
      store.Publish(PaymentReceived(payment, bill, updated.status,
                                    if updated.status == Open then None else Some(balance.value.Due())));
      return Ok(());
    }

    /** The statements of apply; its writes stand only if the transaction succeeds. */
    method Apply(payment: int, found: Payment, intent: Intent, notify: bool, now: int) returns (r: Result<(), Error>)
      modifies store
      ensures var tx := ApplyTx(old(store.Contents()), payment, found, intent, notify, now);
        if tx.Ok? then r == Ok(()) && store.Contents() == tx.value else r == Err(tx.error)
    {
      if payment < 0 || payment >= |store.payments| {
        return Err(NotFound);
      }
      var p := store.payments[payment].(id := payment);
      if p.billId < 0 || p.billId >= |store.bills| {
        return Err(NotFound);
      }
      if p.IsFinal() {
        var chargedAfterCancel := p.status == Canceled && intent.status == IntentSucceeded;
        if !chargedAfterCancel {
          return Ok(());
        }
      }
      if p.intent.None? {
        p := p.(intent := Some(intent.id));
      }
      var next := Moved(p, intent, now);
      if next == p && p.intent == found.intent {
        return Ok(());
      }
      r := store.UpdatePayment(payment, next);
      if r.Err? {
        return r;
      }
      if next.status == Succeeded && p.status != Succeeded {
        r := Settle(p.billId, payment);
      } else if notify && next.status == RequiresPayment && next.failureCode.Some?
        && !(next.failureCode == found.failureCode && next.failureMessage == found.failureMessage) {
        store.Publish(PaymentFailed(payment, next.failureCode, next.failureMessage));
      }
    }

    /** A re-read, a test confirmation, or our own cancellation: apply in its own transaction. */
    method Observe(payment: int, found: Payment, intent: Intent, notify: bool, now: int) returns (r: Result<(), Error>)
      modifies store
      ensures store.Contents() == Exec(old(store.Contents()), Action.Observe(payment, found, intent, notify, now))
      ensures r.Ok? <==> ApplyTx(old(store.Contents()), payment, found, intent, notify, now).Ok?
    {
      var before := store.Contents();
      r := Apply(payment, found, intent, notify, now);
      if r.Err? {
        store.RollBack(before);
      }
    }

    /** The event's id is recorded with the change, or not at all. */
    method HandleWebhook(eventId: string, intent: Intent, found: Payment, now: int) returns (r: Result<(), Error>)
      modifies store
      ensures store.Contents() == Exec(old(store.Contents()), Webhook(eventId, intent, found, now))
      ensures r.Ok? <==> WebhookTx(old(store.Contents()), eventId, intent, found, now).Ok?
    {
      var before := store.Contents();
      var isNew := store.MarkProcessed(STRIPE, eventId);
      if !isNew {
        return Ok(());
      }
      var payment := PaymentOfIntent(store.Contents(), intent);
      if payment.None? {
        return Ok(());
      }
      r := Apply(payment.value, found, intent, true, now);
      if r.Err? {
        store.RollBack(before);
      }
    }

    /** Records what the provider says of a superseded payment; one that never reached it is FAILED.
        A provider that does not answer stops everything. */
    method CancelAtProvider(p: Payment, answers: map<string, Intent>, now: int) returns (r: Result<(), Error>)
      modifies store
      ensures if p.intent.Some? && p.intent.value !in answers
        then r == Err(ProviderUnavailable) && store.Contents() == old(store.Contents())
        else var a := Cancellation(old(store.Contents()), p, answers, now);
             store.Contents() == Exec(old(store.Contents()), a)
             && (r.Ok? <==> Transaction(old(store.Contents()), a).Ok?)
      ensures |store.payments| == |old(store.payments)|
    {
      if p.intent.None? {
        r := MarkFailed(p.id, "superseded", "replaced by a newer payment");
      } else if p.intent.value !in answers {
        return Err(ProviderUnavailable);
      } else {
        var found := if 0 <= p.id < |store.payments| then store.payments[p.id] else p;
        r := Observe(p.id, found, answers[p.intent.value], false, now);
      }
    }

    /** Hands back a payment that is over or has its intent; otherwise creates the intent
        (created is what the provider answers, or why it does not) and links it. */
    method Resume(payment: Payment, created: Result<string, string>)
      returns (r: Result<(), Error>, ghost resumed: seq<Action>)
      modifies store
      ensures resumed == Resumption(old(store.Contents()), payment, created) && |resumed| <= 1
      ensures store.Contents() == Run(old(store.Contents()), resumed)
      ensures resumed == [] ==> r == Ok(())
      ensures resumed != [] && created.Err? ==>
        && r == Err(ProviderUnavailable)
        && (IsPayment(old(store.Contents()), payment.id) ==>
              IsPayment(store.Contents(), payment.id)
              && var before, after := old(store.payments)[payment.id], store.payments[payment.id];
                 if before.IsFinal() || before.intent.Some? then after == before else after.status == FailedPayment)
      ensures resumed != [] && created.Ok? && r.Ok? ==>
        && IsPayment(old(store.Contents()), payment.id) && IsPayment(store.Contents(), payment.id)
        && var before := old(store.payments)[payment.id].intent;
           store.payments[payment.id].intent == if before.Some? then before else Some(created.value)
      ensures |store.payments| == |old(store.payments)|
      ensures IsStored(old(store.Contents()), payment) ==>
        && IsStored(store.Contents(), store.payments[payment.id])
        && Resumed(old(store.Contents()), payment, store.payments[payment.id], created, r)
    {
      resumed := Resumption(store.Contents(), payment, created);
      if payment.IsFinal() || payment.status == FailedPayment {
        return Ok(()), resumed;
      }
      if payment.intent.Some? {
        return Ok(()), resumed;
      }
      RunOnly(store.Contents(), resumed[0]);
      if created.Err? {
        var failed := MarkFailed(payment.id, "provider_error", created.error);
        return Err(ProviderUnavailable), resumed;
      }
      var version := if 0 <= payment.id < |store.payments| then store.payments[payment.id].version else 0;
      r := Link(payment.id, version, created.value);
    }

    /** The steps of payBalance up to its decision: with a key that was used before, that payment;
        otherwise everything superseded is canceled, in order, and then it is decided on what is due by then. */
    method DecideBalance(bill: int, key: string, answers: map<string, Intent>, now: int)
      returns (r: Result<int, Error>, ghost trace: seq<Action>)
      modifies store
      ensures store.Contents() == Run(old(store.Contents()), trace)
      ensures var known := FindByKey(old(store.payments), key); known.Some? ==> r == Ok(known.value) && trace == []
      ensures r.Ok? && FindByKey(old(store.payments), key).None? ==>
        && var db := old(store.Contents());
        && IsBill(db, bill) && Payable(db, db.bills[bill]).Ok?
        && var due := Money(Payable(db, db.bills[bill]).value, db.bills[bill].currency);
        && var stale := Superseded(PaymentsOf(db.payments, bill), due);
        && Answerable(stale, answers)
        && trace == Cancellations(db, stale, answers, now) + [Action.PayBalance(bill, key)]
        && FinalTx(Run(db, Cancellations(db, stale, answers, now)), bill, key) == Ok(Outcome(store.Contents(), r.value))
      ensures r.Err? ==> |store.payments| == |old(store.payments)|
      ensures Good(old(store.Contents())) && r.Ok? ==>
        0 <= r.value < |store.payments| && store.payments[r.value].id == r.value
      ensures Good(old(store.Contents())) && r.Ok? && FindByKey(old(store.payments), key).None? ==>
        && trace != []
        && var prior := Run(old(store.Contents()), trace[..|trace| - 1]);
        && IsBill(prior, bill)
        && OpenFor(store.Contents(), r.value, bill, Final, BalanceDue(prior, bill))
    {
      ghost var db := store.Contents();
      var retried := FindByKey(store.payments, key);
      if retried.Some? {
        FindByKeyFinds(store.payments, key);
        return Ok(retried.value), [];
      }
      if bill < 0 || bill >= |store.bills| {
        return Err(NotFound), [];
      }
      var due := RequirePayable(store.bills[bill]);
      if due.Err? {
        return Err(due.error), [];
      }
      var stale := Superseded(PaymentsOf(store.payments, bill), Money(due.value, store.bills[bill].currency));
      hide Superseded, PaymentsOf, Payable, FinalTx, Cancellation, FindByKey;
      trace := [];
      for i := 0 to |stale|
        invariant Answerable(stale[..i], answers) && trace == Cancellations(db, stale[..i], answers, now)
        invariant store.Contents() == Run(db, trace) && |store.payments| == |db.payments|
      {
        var canceled := CancelAtProvider(stale[i], answers, now);
        if stale[i].intent.Some? && stale[i].intent.value !in answers {
          return Err(ProviderUnavailable), trace;
        }
        CancellationsOneMore(db, stale[..i], stale[i], answers, now);
        assert stale[..i + 1] == stale[..i] + [stale[i]];
        trace := Cancellations(db, stale[..i + 1], answers, now);
        if canceled.Err? {
          return Err(canceled.error), trace;
        }
      }
      assert stale[..|stale|] == stale;
      ghost var prior := store.Contents();
      r := DecideFinal(bill, key);
      BalanceIsOpen(db, trace, prior, bill, key);
      DecisionIsExec(Run(db, trace), bill, key);
      RunOneMore(db, trace, Action.PayBalance(bill, key));
      assert (trace + [Action.PayBalance(bill, key)])[..|trace|] == trace;
      trace := trace + [Action.PayBalance(bill, key)];
    }

    /** Pays what is due: the decision, and then the payment's intent. A key that was used
        before adds no payment and finds the one it created. */
    method PayBalance(bill: int, key: string, answers: map<string, Intent>, created: Result<string, string>, now: int)
      returns (r: Result<int, Error>, ghost decided: seq<Action>, ghost resumed: seq<Action>)
      modifies store
      ensures store.Contents() == Run(old(store.Contents()), decided + resumed) && |resumed| <= 1
      ensures var known := FindByKey(old(store.payments), key);
        known.Some? ==> decided == [] && (r.Ok? ==> r == Ok(known.value)) && |store.payments| == |old(store.payments)|
      ensures (r.Ok? || resumed != []) && FindByKey(old(store.payments), key).None? ==>
        && var db := old(store.Contents());
        && IsBill(db, bill) && Payable(db, db.bills[bill]).Ok?
        && var due := Money(Payable(db, db.bills[bill]).value, db.bills[bill].currency);
        && var stale := Superseded(PaymentsOf(db.payments, bill), due);
        && Answerable(stale, answers)
        && decided == Cancellations(db, stale, answers, now) + [Action.PayBalance(bill, key)]
        && var tx := FinalTx(Run(db, Cancellations(db, stale, answers, now)), bill, key);
        && tx.Ok? && tx.value.db == Run(db, decided) && (r.Ok? ==> r.value == tx.value.row)
      ensures r.Err? && resumed == [] ==> |store.payments| == |old(store.payments)|
      ensures Good(old(store.Contents())) && r.Ok? ==> CanBeMade(store.payments, r.value)
      ensures Good(old(store.Contents())) && r.Ok? && FindByKey(old(store.payments), key).None? ==>
        && decided != []
        && var prior := Run(old(store.Contents()), decided[..|decided| - 1]);
        && IsBill(prior, bill) && store.payments[r.value].intent.Some?
        && OpenFor(store.Contents(), r.value, bill, Final, BalanceDue(prior, bill))
    {
      hide Superseded, PaymentsOf, Payable, FinalTx, Cancellations, Answerable, Good, Standing, FindByKey;
      resumed := [];
      r, decided := DecideBalance(bill, key, answers, now);
      if r.Err? || r.value < 0 || r.value >= |store.payments| {
        assert decided + resumed == decided;
        return;
      }
      var linked;
      linked, resumed := Resume(store.payments[r.value], created);
      RunThen(old(store.Contents()), decided, resumed);
      if linked.Err? {
        r := Err(linked.error);
      }
    }

    /** Takes a deposit for a booking, on its live bill or on a new one; fetched is the caller's
        booking as scheduler answers, for when its event trails. */
    method RequestDeposit(appointment: int, fetched: Option<AppointmentRef>, amount: Money, key: string,
                          created: Result<string, string>)
      returns (r: Result<int, Error>, ghost decided: seq<Action>, ghost resumed: seq<Action>)
      requires fetched.Some? ==> fetched.value.appointment == appointment
      modifies store
      ensures store.Contents() == Run(old(store.Contents()), decided + resumed) && |resumed| <= 1
      ensures var known := FindByKey(old(store.payments), key);
        known.Some? ==> decided == [] && (r.Ok? ==> r == Ok(known.value)) && |store.payments| == |old(store.payments)|
      ensures (r.Ok? || resumed != []) && FindByKey(old(store.payments), key).None? ==>
        && var db := old(store.Contents()); var known := KnownRef(db.refs, appointment);
        && var booking := if known.Some? then known else fetched;
        && booking.Some? && booking.value.status == RefBooked && amount.minor > 0
        && var bill := BillToPay(db, appointment);
        && decided == Preparation(db, appointment, booking.value) + [Action.RequestDeposit(bill, amount, key)]
        && var tx := DepositTx(Run(db, Preparation(db, appointment, booking.value)), bill, amount, key);
        && tx.Ok? && tx.value.db == Run(db, decided) && (r.Ok? ==> r.value == tx.value.row)
      ensures r.Err? && resumed == [] ==> |store.payments| == |old(store.payments)|
      ensures Good(old(store.Contents())) && r.Ok? ==> CanBeMade(store.payments, r.value)
      ensures Good(old(store.Contents())) && r.Ok? && FindByKey(old(store.payments), key).None? ==>
        && store.payments[r.value].intent.Some?
        && OpenFor(store.Contents(), r.value, BillToPay(old(store.Contents()), appointment), Deposit, amount)
    {
      hide Good;
      resumed := [];
      r, decided := DecideBooking(appointment, fetched, amount, key);
      hide DepositTx, LiveBill, FindByKey, Preparation, BillToPay;
      if r.Err? || r.value < 0 || r.value >= |store.payments| {
        assert decided + resumed == decided;
        return;
      }
      var linked;
      linked, resumed := Resume(store.payments[r.value], created);
      RunThen(old(store.Contents()), decided, resumed);
      if linked.Err? {
        r := Err(linked.error);
      }
    }

    /** The appointment's live bill, or a new one. */
    method OpenBillFor(appointment: int, booking: AppointmentRef, ghost db: Db, ghost before: seq<Action>)
      returns (bill: int, ghost trace: seq<Action>)
      requires store.Contents() == Run(db, before)
      modifies store
      ensures bill == BillToPay(old(store.Contents()), appointment)
      ensures LiveBill(store.bills, appointment) == Some(bill) && store.payments == old(store.payments)
      ensures store.Contents() == Run(db, trace)
      ensures trace == before + if LiveBill(old(store.bills), appointment).Some? then []
        else [OpenBill(appointment, booking.customer, booking.vehicle, booking.estimate.currency)]
    {
      trace := before;
      var live := LiveBill(store.bills, appointment);
      if live.Some? {
        return live.value, before;
      }
      var created := store.AddBill(appointment, booking.customer, booking.vehicle, booking.estimate.currency);
      ghost var a := OpenBill(appointment, booking.customer, booking.vehicle, booking.estimate.currency);
      RunOneMore(db, before, a);
      return created.value, before + [a];
    }

    /** The steps of requestDeposit up to its decision. */
    method DecideBooking(appointment: int, fetched: Option<AppointmentRef>, amount: Money, key: string)
      returns (r: Result<int, Error>, ghost trace: seq<Action>)
      requires fetched.Some? ==> fetched.value.appointment == appointment
      modifies store
      ensures store.Contents() == Run(old(store.Contents()), trace)
      ensures var known := FindByKey(old(store.payments), key); known.Some? ==> r == Ok(known.value) && trace == []
      ensures r.Ok? && FindByKey(old(store.payments), key).None? ==>
        && var db := old(store.Contents()); var known := KnownRef(db.refs, appointment);
        && var booking := if known.Some? then known else fetched;
        && booking.Some? && booking.value.status == RefBooked && amount.minor > 0
        && var bill := BillToPay(db, appointment);
        && trace == Preparation(db, appointment, booking.value) + [Action.RequestDeposit(bill, amount, key)]
        && var prepared := Run(db, Preparation(db, appointment, booking.value));
        && DepositTx(prepared, bill, amount, key) == Ok(Outcome(store.Contents(), r.value))
      ensures r.Err? ==> |store.payments| == |old(store.payments)|
      ensures Good(old(store.Contents())) && r.Ok? ==>
        0 <= r.value < |store.payments| && store.payments[r.value].id == r.value
      ensures Good(old(store.Contents())) && r.Ok? && FindByKey(old(store.payments), key).None? ==>
        OpenFor(store.Contents(), r.value, BillToPay(old(store.Contents()), appointment), Deposit, amount)
    {
      ghost var db := store.Contents();
      trace := [];
      var retried := FindByKey(store.payments, key);
      if retried.Some? {
        FindByKeyFinds(store.payments, key);
        return Ok(retried.value), [];
      }
      var booking: AppointmentRef;
      if appointment in store.refs {
        booking := store.refs[appointment];
      } else {
        if fetched.None? {
          return Err(NotFound), [];
        }
        booking := fetched.value;
        store.refs := store.refs[appointment := booking];
        RunOneMore(db, trace, CopyBooking(booking));
        trace := trace + [CopyBooking(booking)];
      }
      if booking.status != RefBooked {
        return Err(AlreadyBilled), trace;
      }
      if amount.minor <= 0 {
        return Err(InvalidAmount), trace;
      }
      hide DepositTx, FindByKey, LiveBill;
      var bill;
      bill, trace := OpenBillFor(appointment, booking, db, trace);
      assert trace == Preparation(db, appointment, booking);
      ghost var prior := store.Contents();
      r := DecideDeposit(bill, amount, key);
      DepositIsOpen(db, trace, prior, bill, amount, key);
      ghost var a := Action.RequestDeposit(bill, amount, key);
      DepositIsExec(Run(db, trace), bill, amount, key);
      RunOneMore(db, trace, a);
      trace := trace + [a];
    }
  }

  /** Before a deposit is decided on, the booking is known and the appointment has its live bill, which is the one
      the deposit goes to. */
  lemma PreparationGivesABill(db: Db, appointment: int, booking: AppointmentRef)
    requires booking.appointment == appointment
    requires appointment in db.refs ==> db.refs[appointment] == booking
    ensures var prepared, bill := Run(db, Preparation(db, appointment, booking)), BillToPay(db, appointment);
      && HasItsBill(db, prepared, appointment, booking)
      && 0 <= bill < |prepared.bills| && IsLive(prepared.bills[bill], appointment)
      && prepared.payments == db.payments && prepared.processed == db.processed && prepared.outbox == db.outbox
  {
    var copies, opens := CopyIfNew(db, appointment, booking), OpenIfNone(db, appointment, booking);
    var copied := Run(db, copies);
    RunThen(db, copies, opens);
    CopyRuns(db, appointment, booking);
    LiveBillFinds(db.bills, appointment);
    OpenRuns(copied, db, appointment, booking);
    hide LiveBill, Exec, Run;
    if LiveBill(db.bills, appointment).Some? {
      assert IsLive(db.bills[LiveBill(db.bills, appointment).value], appointment);
    }
  }

  lemma CopyRuns(db: Db, appointment: int, booking: AppointmentRef)
    requires booking.appointment == appointment
    requires appointment in db.refs ==> db.refs[appointment] == booking
    ensures Run(db, CopyIfNew(db, appointment, booking)) == db.(refs := db.refs[appointment := booking])
  {
    if appointment in db.refs {
      assert db.refs[appointment := booking] == db.refs;
    } else {
      RunOnly(db, CopyBooking(booking));
    }
  }

  lemma OpenRuns(copied: Db, db: Db, appointment: int, booking: AppointmentRef)
    requires copied.bills == db.bills
    ensures Run(copied, OpenIfNone(db, appointment, booking))
         == if LiveBill(db.bills, appointment).Some? then copied
            else copied.(bills := db.bills + [NewBill(|db.bills|, appointment, booking.customer, booking.vehicle,
                                                      booking.estimate.currency)])
  {
    if LiveBill(db.bills, appointment).None? {
      RunOnly(copied, OpenBill(appointment, booking.customer, booking.vehicle, booking.estimate.currency));
    }
    hide LiveBill;
  }

  lemma RunOnly(db: Db, a: Action)
    ensures Run(db, [a]) == Exec(db, a)
  {
    hide Exec;
    assert [a][1..] == [] && Run(Exec(db, a), []) == Exec(db, a);
  }

  lemma DecisionIsExec(db: Db, bill: int, key: string)
    ensures var tx := FinalTx(db, bill, key);
      Exec(db, Action.PayBalance(bill, key)) == if tx.Ok? then tx.value.db else db
  {
    hide FinalTx;
  }

  lemma DepositIsExec(db: Db, bill: int, amount: Money, key: string)
    ensures var tx := DepositTx(db, bill, amount, key);
      Exec(db, Action.RequestDeposit(bill, amount, key)) == if tx.Ok? then tx.value.db else db
  {
    hide DepositTx;
  }

  /** A balance that was decided on is a stored payment of what was due. */
  lemma BalanceIsOpen(db: Db, actions: seq<Action>, prior: Db, bill: int, key: string)
    requires prior == Run(db, actions)
    ensures var tx := FinalTx(prior, bill, key);
      Good(db) && tx.Ok? ==>
        && IsBill(prior, bill)
        && OpenFor(tx.value.db, tx.value.row, bill, Final, BalanceDue(prior, bill))
        && tx.value.db.payments[tx.value.row].id == tx.value.row
  {
    if Good(db) && FinalTx(prior, bill, key).Ok? {
      RunKeepsGood(db, actions);
      BalanceDecision(prior, bill, key);
      FinalKeepsGood(prior, bill, key);
      GoodHasRows(FinalTx(prior, bill, key).value.db);
    }
    hide Good, FinalTx, Standing;
  }

  /** A deposit that was decided on is a stored payment of the amount that was asked for. */
  lemma DepositIsOpen(db: Db, actions: seq<Action>, prior: Db, bill: int, amount: Money, key: string)
    requires prior == Run(db, actions)
    ensures var tx := DepositTx(prior, bill, amount, key);
      Good(db) && tx.Ok? ==>
        && OpenFor(tx.value.db, tx.value.row, bill, Deposit, amount)
        && tx.value.db.payments[tx.value.row].id == tx.value.row
  {
    if Good(db) && DepositTx(prior, bill, amount, key).Ok? {
      RunKeepsGood(db, actions);
      DepositDecision(prior, bill, amount, key);
      DepositKeepsGood(prior, bill, amount, key);
      GoodHasRows(DepositTx(prior, bill, amount, key).value.db);
    }
    hide Good, DepositTx;
  }

  class Bookings {
    const store: Store

    constructor (store: Store)
      ensures this.store == store
    {
      this.store := store;
    }

    method Booked(source: string, eventId: string, booking: AppointmentRef)
      modifies store
      ensures store.Contents()
        == Exec(old(store.Contents()),
                BookedEvent(source, eventId, booking, KnownRef(old(store.refs), booking.appointment)))
    {
      var isNew := store.MarkProcessed(source, eventId);
      if !isNew {
        return;
      }
      if booking.appointment !in store.refs || store.refs[booking.appointment].status == RefBooked {
        store.refs := store.refs[booking.appointment := booking];
      }
    }

    /** The transaction of the cancelled handler, for the live bill it saw before. */
    method Cancelled(source: string, eventId: string, booking: AppointmentRef, seen: Option<int>)
      returns (r: Result<(), Error>)
      modifies store
      ensures var known := KnownRef(old(store.refs), booking.appointment);
        && store.Contents() == Exec(old(store.Contents()), CancelledEvent(source, eventId, booking, known, seen))
        && (r.Ok? <==> CancelledTx(old(store.Contents()), source, eventId, booking, known, seen).Ok?)
    {
      var before := store.Contents();
      var isNew := store.MarkProcessed(source, eventId);
      if !isNew {
        return Ok(());
      }
      var id := booking.appointment;
      var ref := if id in store.refs then store.refs[id] else booking;
      store.refs := store.refs[id := ref.(status := RefCancelled)];
      if seen.None? {
        return Ok(());
      }
      if seen.value < 0 || seen.value >= |store.bills| {
        store.RollBack(before);
        return Err(NotFound);
      }
      var locked := store.bills[seen.value];
      if locked.status != Open {
        return Ok(());
      }
      var all := PaymentsOf(store.payments, seen.value);
      if exists i :: 0 <= i < |all| && (all[i].status.Captured() || all[i].status == Processing) {
        return Ok(());
      }
      store.bills := store.bills[seen.value := locked.(status := Void)];
      return Ok(());
    }

    /** ServiceCompleted: the bill is priced together with the event's id, or neither is stored. */
    method Completed(source: string, eventId: string, c: Completion, inWarranty: bool, fee: int, now: int)
      returns (r: Result<(), Error>)
      modifies store
      ensures var known, seen := KnownRef(old(store.refs), c.appointment), LiveBill(old(store.bills), c.appointment);
        && store.Contents()
           == Exec(old(store.Contents()), CompletedEvent(source, eventId, c, inWarranty, fee, known, seen, now))
        && (r.Ok? <==> CompletedTx(old(store.Contents()), source, eventId, c, inWarranty, fee, known, seen, now).Ok?)
    {
      var before := store.Contents();
      r := CompleteAndPrice(source, eventId, c, inWarranty, fee, now);
      if r.Err? {
        store.RollBack(before);
      }
    }

    method CompleteAndPrice(source: string, eventId: string, c: Completion, inWarranty: bool, fee: int, now: int)
      returns (r: Result<(), Error>)
      modifies store
      ensures var known, seen := KnownRef(old(store.refs), c.appointment), LiveBill(old(store.bills), c.appointment);
        var tx := CompletedTx(old(store.Contents()), source, eventId, c, inWarranty, fee, known, seen, now);
        if tx.Ok? then r == Ok(()) && store.Contents() == tx.value else r == Err(tx.error)
    {
      var isNew := store.MarkProcessed(source, eventId);
      if !isNew {
        return Ok(());
      }
      var estimate := EstimateOf(c.services);
      if estimate < 0 {
        return Err(InvalidAmount);
      }
      var id := c.appointment;
      store.refs := store.refs[id :=
        if id in store.refs then store.refs[id].(status := RefCompleted)
        else AppointmentRef(id, c.customer, c.vehicle, c.dealership, Money(estimate, c.currency), RefCompleted)];
      var live := LiveBill(store.bills, id);
      if live.None? {
        var created := store.AddBill(id, c.customer, c.vehicle, c.currency);
        live := Some(created.value);
      }
      r := PriceLocked(live.value, c, inWarranty, fee, now);
    }

    method PriceLocked(bill: int, c: Completion, inWarranty: bool, fee: int, now: int) returns (r: Result<(), Error>)
      modifies store
      ensures var tx := PriceCompleted(old(store.Contents()), bill, c, inWarranty, fee, now);
        if tx.Ok? then r == Ok(()) && store.Contents() == tx.value else r == Err(tx.error)
    {
      if bill < 0 || bill >= |store.bills| {
        return Err(NotFound);
      }
      var locked := store.bills[bill];
      if locked.status != Open {
        return Ok(());
      }
      if locked.currency != c.currency {
        return Err(CurrencyMismatch);
      }
      if !ValidServices(c.services) {
        return Err(InvalidLine);
      }
      r := PriceOpen(bill, PricedLines(c.services, inWarranty, fee), now);
    }

    method PriceOpen(bill: int, lines: seq<BillLine>, now: int) returns (r: Result<(), Error>)
      requires 0 <= bill < |store.bills|
      modifies store
      ensures var tx := PriceTx(old(store.Contents()), bill, lines, now);
        if tx.Ok? then r == Ok(()) && store.Contents() == tx.value else r == Err(tx.error)
    {
      hide Price, BalanceAt, AllLines, LinesSum;
      var priced := PriceBill(store.bills[bill], lines, now);
      var balance := store.BalanceFor(priced);
      if balance.Err? {
        return Err(balance.error);
      }
      var saved := priced.(status := balance.value.StatusFor(priced));
      store.bills := store.bills[bill := saved];
      if balance.value.Due() > 0 {
        store.Publish(BillReady(bill, saved.status, saved.Total(), balance.value.Held(), balance.value.Due()));
      }
      return Ok(());
    }
  }

  /** scheduler's events as they arrive, one at a time. */
  class SchedulerEventsConsumer {
    const store: Store
    const bookings: Bookings
    const payments: Payments

    constructor (store: Store)
      ensures this.store == store && bookings.store == store && payments.store == store
    {
      this.store := store;
      bookings := new Bookings(store);
      payments := new Payments(store);
    }

    ghost predicate Wired() {
      bookings.store == store && payments.store == store
    }

    /** The cancelled handler's first half: every open intent of the OPEN bill is canceled at the
        provider, in order; the first that cannot be ends the handler. */
    method CancelIntents(bill: int, answers: map<string, Intent>, now: int) returns (ok: bool)
      requires Wired() && forall i :: 0 <= i < |store.payments| ==> store.payments[i].id == i
      modifies store
      ensures var pass := BookingEvents.CancelIntents(old(store.Contents()), bill, |old(store.payments)|, answers, now);
        store.Contents() == pass.db && ok == pass.ok
    {
      ghost var db := store.Contents();
      var read := store.payments;
      for i := 0 to |read|
        invariant BookingEvents.CancelIntents(db, bill, i, answers, now) == BookingEvents.Pass(store.Contents(), true)
        invariant |store.payments| == |read| && forall k :: 0 <= k < |read| ==> store.payments[k].id == k
        invariant forall k :: i <= k < |read| ==> store.payments[k] == read[k]
      {
        BookingEvents.CancelIntentMovesOne(store.Contents(), bill, i, answers, now);
        ok := CancelIntent(read[i], bill, answers, now);
        if !ok {
          CancelStopsAt(db, bill, i, |read|, answers, now);
          return false;
        }
      }
      return true;
    }

    method CancelIntent(p: Payment, bill: int, answers: map<string, Intent>, now: int) returns (ok: bool)
      requires Wired() && 0 <= p.id < |store.payments| && store.payments[p.id] == p
      modifies store
      ensures BookingEvents.CancelIntent(old(store.Contents()), bill, p.id, answers, now)
           == BookingEvents.Pass(store.Contents(), ok)
    {
      if p.billId != bill || p.status != RequiresPayment || p.intent.None? {
        return true;
      }
      if p.intent.value !in answers {
        return false;
      }
      var applied := payments.Observe(p.id, p, answers[p.intent.value], false, now);
      return applied.Ok?;
    }

    /** Each event goes to its handler, and its effect is the modelled delivery; a handler that
        threw is retried. */
    method OnMessage(story: BookingEvents.Story, d: BookingEvents.Delivery) returns (handled: bool)
      requires Wired() && forall i :: 0 <= i < |store.payments| ==> store.payments[i].id == i
      requires story.completion.appointment == story.Appointment()
      modifies store
      ensures store.Contents() == BookingEvents.Deliver(old(store.Contents()), story, d)
      ensures handled <==> BookingEvents.Transacted(old(store.Contents()), story, d).Some?
    {
      match d
      case Booked(eventId) =>
        bookings.Booked(BookingEvents.BookedTopic(), eventId, story.booking);
        return true;
      case Cancelled(eventId, reached, now) => handled := OnCancelled(story, eventId, reached, now);
      case Completed(eventId, warranty, fee, now) =>
        if warranty.None? {
          return false;
        }
        var topic := BookingEvents.CompletedTopic();
        var r := bookings.Completed(topic, eventId, story.completion, warranty.value, fee, now);
        return r.Ok?;
    }

    method OnCancelled(story: BookingEvents.Story, eventId: string, reached: set<string>, now: int)
      returns (handled: bool)
      requires Wired() && forall i :: 0 <= i < |store.payments| ==> store.payments[i].id == i
      modifies store
      ensures var d := BookingEvents.Cancelled(eventId, reached, now);
        && store.Contents() == BookingEvents.Deliver(old(store.Contents()), story, d)
        && (handled <==> BookingEvents.Transacted(old(store.Contents()), story, d).Some?)
    {
      ghost var db := store.Contents();
      var answers := BookingEvents.AnswersTo(story, reached);
      var bill := LiveBill(store.bills, story.Appointment());
      LiveBillFinds(store.bills, story.Appointment());
      var ok := true;
      if bill.Some? && store.bills[bill.value].status == Open {
        ok := CancelIntents(bill.value, answers, now);
      }
      BookingEvents.CancelUnfolds(db, story, BookingEvents.Cancelled(eventId, reached, now));
      assert BookingEvents.BeforeCancel(db, story, answers, now) == BookingEvents.Pass(store.Contents(), ok);
      hide BookingEvents.BeforeCancel, BookingEvents.Transacted, BookingEvents.Deliver, BookingEvents.CancelledTopic,
           BookingEvents.AnswersTo, CancelledTx, LiveBill;
      if !ok {
        return false;
      }
      BookingEvents.RefsBeforeCancel(db, story, answers, now);
      var r := bookings.Cancelled(BookingEvents.CancelledTopic(), eventId, story.booking, bill);
      return r.Ok?;
    }
  }

  lemma {:induction false} CancelStopsAt(db: Db, bill: int, i: nat, n: nat, answers: map<string, Intent>, now: int)
    requires i < n && !BookingEvents.CancelIntents(db, bill, i + 1, answers, now).ok
    ensures BookingEvents.CancelIntents(db, bill, n, answers, now)
         == BookingEvents.CancelIntents(db, bill, i + 1, answers, now)
  {
    hide BookingEvents.CancelIntent;
    if i + 1 < n {
      CancelStopsAt(db, bill, i, n - 1, answers, now);
    }
  }

  /** Bill.price: adds every line to the fee of its kind. */
  method PriceBill(bill: Bill, lines: seq<BillLine>, now: int) returns (priced: Bill)
    ensures priced == Price(bill, lines, now)
    ensures priced.Total() == AllLines(lines)
  {
    var service, material, warranty := 0, 0, 0;
    for i := 0 to |lines|
      invariant service == LinesSum(lines[..i], ServiceLine)
      invariant material == LinesSum(lines[..i], MaterialLine)
      invariant warranty == LinesSum(lines[..i], WarrantyFeeLine)
    {
      assert lines[..i + 1][..i] == lines[..i];
      var total := lines[i].quantity * lines[i].unitPrice;
      match lines[i].kind
      case ServiceLine => service := service + total;
      case MaterialLine => material := material + total;
      case WarrantyFeeLine => warranty := warranty + total;
    }
    assert lines[..|lines|] == lines;
    LinesAddUp(lines);
    priced := bill.(warrantyFee := warranty, serviceFee := service, materialCost := material,
                    status := Pending, finalizedAt := Some(now), lines := lines);
  }
}
