/** Where payments and bills end up over whole runs of billing's transactions. */
module SettlementOutcomes {
  import opened Prelude
  import opened Balances
  import opened Settlement
  import opened SettlementRuns

  // --- A priced bill is frozen -----------------------------------------------------

  /** Once a bill has left OPEN only its status can change, and VOID does not. */
  ghost predicate Frozen(bill: Bill, bill': Bill) {
    && bill'.appointment == bill.appointment && bill'.currency == bill.currency
    && (bill.status != Open ==>
         && bill' == bill.(status := bill'.status)
         && bill'.status != Open
         && (bill'.status == Void <==> bill.status == Void))
  }

  ghost predicate BillsFrozen(db: Db, db': Db) {
    |db.bills| <= |db'.bills| && forall b :: 0 <= b < |db.bills| ==> Frozen(db.bills[b], db'.bills[b])
  }

  lemma ApplyFreezes(db: Db, payment: int, found: Payment, intent: Intent, notify: bool, now: int)
    requires ApplyTx(db, payment, found, intent, notify, now).Ok?
    ensures BillsFrozen(db, ApplyTx(db, payment, found, intent, notify, now).value)
  {
    hide BalanceAt, IntentOfAnother, Moved;
  }

  lemma CompletedFreezes(db: Db, source: string, eventId: string, c: Completion, inWarranty: bool, fee: int,
                         known: Option<AppointmentRef>, seen: Option<int>, now: int)
    requires CompletedTx(db, source, eventId, c, inWarranty, fee, known, seen, now).Ok?
    ensures BillsFrozen(db, CompletedTx(db, source, eventId, c, inWarranty, fee, known, seen, now).value)
  {
    hide BalanceAt, LinesSum, EstimateOf, PricedLines, LiveBill, ValidServices;
  }

  lemma OthersFreeze(db: Db, a: Action)
    requires Transaction(db, a).Ok? && !a.Observe? && !a.Webhook? && !a.CompletedEvent?
    ensures BillsFrozen(db, Exec(db, a))
  {
    hide FindByKey, FindOpen, PaymentsOf, BalanceAt, IntentOfAnother, AnyDeposit, LiveBill;
  }

  lemma WebhookFreezes(db: Db, eventId: string, intent: Intent, found: Payment, now: int)
    requires WebhookTx(db, eventId, intent, found, now).Ok?
    ensures BillsFrozen(db, WebhookTx(db, eventId, intent, found, now).value)
  {
    hide ApplyTx, PaymentOfIntent;
    var payment := PaymentOfIntent(db, intent);
    if (STRIPE, eventId) !in db.processed && payment.Some? {
      ApplyFreezes(db.(processed := db.processed + {(STRIPE, eventId)}), payment.value, found, intent, true, now);
    }
  }

  lemma ExecFreezes(db: Db, a: Action)
    ensures BillsFrozen(db, Exec(db, a))
  {
    if Transaction(db, a).Ok? && !a.Observe? && !a.Webhook? && !a.CompletedEvent? {
      OthersFreeze(db, a);
    }
    hide ApplyTx, WebhookTx, CompletedTx, DepositTx, FinalTx, MarkFailedTx, LinkTx, OpenBillTx, CancelledTx, BookedTx;
    if Transaction(db, a).Ok? {
      match a
      case Observe(payment, found, intent, notify, now) => ApplyFreezes(db, payment, found, intent, notify, now);
      case Webhook(eventId, intent, found, now) => WebhookFreezes(db, eventId, intent, found, now);
      case CompletedEvent(source, eventId, c, inWarranty, fee, known, seen, now) =>
        CompletedFreezes(db, source, eventId, c, inWarranty, fee, known, seen, now);
      case _ =>
    }
  }

  /** A bill's lines, fees and total never change after it left OPEN, it never goes back, and VOID is final. */
  lemma {:induction false} PricedBillsStayPriced(db: Db, actions: seq<Action>)
    ensures BillsFrozen(db, Run(db, actions))
    decreases |actions|
  {
    if actions != [] {
      var next := Exec(db, actions[0]);
      ExecFreezes(db, actions[0]);
      PricedBillsStayPriced(next, actions[1..]);
      forall b | 0 <= b < |db.bills| ensures Frozen(db.bills[b], Run(db, actions).bills[b]) {
        assert Frozen(db.bills[b], next.bills[b]);
        assert Frozen(next.bills[b], Run(db, actions).bills[b]);
      }
    }
  }

  // --- What an answer writes ---------------------------------------------------------

  /** Where apply would move payment p; p itself if it would not write. */
  function Target(db: Db, p: int, found: Payment, intent: Intent, now: int): Payment
    requires IsPayment(db, p)
  {
    var row := db.payments[p];
    var linked := if row.intent.None? then row.(intent := Some(intent.id)) else row;
    if row.IsFinal() && !(row.status == Canceled && intent.status == IntentSucceeded) then row
    else if Moved(linked, intent, now) == linked && linked.intent == found.intent then row
    else Moved(linked, intent, now)
  }

  /** An answer writes its payment and the status of that payment's bill, and nothing else. */
  ghost predicate WritesOnly(db: Db, db': Db, p: int)
    requires IsPayment(db, p) && IsBill(db, db.payments[p].billId)
  {
    var b := db.payments[p].billId;
    && |db'.payments| == |db.payments| && db'.payments == db.payments[p := db'.payments[p]]
    && SameMoney(db.payments[p], db'.payments[p]) && db'.payments[p].kind == db.payments[p].kind
    && |db'.bills| == |db.bills| && db'.bills == db.bills[b := db.bills[b].(status := db'.bills[b].status)]
    && (db'.bills[b].status == Open <==> db.bills[b].status == Open)
    && (db'.bills[b].status == Void <==> db.bills[b].status == Void)
    && db'.refunds == db.refunds
  }

  lemma RecordShape(db: Db, p: int, next: Payment, found: Payment, notify: bool)
    requires IsPayment(db, p) && db.payments[p].id == p && IsBill(db, db.payments[p].billId)
    requires SameMoney(db.payments[p], next) && next.kind == db.payments[p].kind
    requires RecordTx(db, db.payments[p], next, found, notify).Ok?
    ensures var db' := RecordTx(db, db.payments[p], next, found, notify).value;
      && WritesOnly(db, db', p)
      && db'.payments[p] == if next == db.payments[p] then next else next.(version := next.version + 1)
  {
    var saved := SavePayment(db, p, next).value;
    if next.status == Succeeded && db.payments[p].status != Succeeded {
      SettleShape(saved, db.payments[p].billId, p);
    }
  }

  lemma ApplyShape(db: Db, p: int, found: Payment, intent: Intent, notify: bool, now: int)
    requires IsPayment(db, p) && db.payments[p].id == p && ApplyTx(db, p, found, intent, notify, now).Ok?
    ensures IsBill(db, db.payments[p].billId)
    ensures var db' := ApplyTx(db, p, found, intent, notify, now).value; var next := Target(db, p, found, intent, now);
      && WritesOnly(db, db', p)
      && db'.payments[p] == if next == db.payments[p] then next else next.(version := next.version + 1)
  {
    var row := db.payments[p];
    if !row.IsFinal() || (row.status == Canceled && intent.status == IntentSucceeded) {
      var linked := if row.intent.None? then row.(intent := Some(intent.id)) else row;
      var next := Moved(linked, intent, now);
      if !(next == linked && linked.intent == found.intent) {
        RecordShape(db, p, next, found, notify);
      }
    }
  }

  // --- What a payment comes to ---------------------------------------------------------

  /** No payment is linked to this intent. */
  predicate Unlinked(db: Db, intent: string) {
    forall i :: 0 <= i < |db.payments| ==> db.payments[i].intent != Some(intent)
  }

  /** The intent is payment p's: p is linked to it, or nothing is and its metadata names p. */
  predicate IsAbout(db: Db, intent: Intent, p: int) {
    && IsPayment(db, p)
    && (db.payments[p].intent == Some(intent.id) || (Unlinked(db, intent.id) && intent.paymentId == Some(p)))
  }

  /** The provider's answer about payment p that transaction a committed on db. */
  function Observed(db: Db, a: Action, p: int): Option<IntentStatus> {
    if Transaction(db, a).Err? then None
    else if a.Observe? && a.payment == p then Some(a.intent.status)
    else if a.Webhook? && (STRIPE, a.eventId) !in db.processed && IsAbout(db, a.intent, p) then Some(a.intent.status)
    else None
  }

  lemma FindByIntentFinds(payments: seq<Payment>, intent: string)
    ensures var found := FindByIntent(payments, intent);
      if found.Some? then 0 <= found.value < |payments| && payments[found.value].intent == Some(intent)
      else forall i :: 0 <= i < |payments| ==> payments[i].intent != Some(intent)
  {
    if payments != [] && payments[|payments| - 1].intent != Some(intent) {
      FindByIntentFinds(payments[..|payments| - 1], intent);
    }
  }

  /** A webhook's payment is the one its intent is about. */
  lemma PaymentOfIntentIs(db: Db, intent: Intent, p: int)
    requires Unique(db)
    ensures PaymentOfIntent(db, intent) == Some(p) <==> IsAbout(db, intent, p)
  {
    FindByIntentFinds(db.payments, intent.id);
    hide FindByIntent;
  }

  /** A webhook is the answer about the payment it is about, recorded together with the event's id;
      an event that was processed does nothing, one about nothing of ours only its id is kept of. */
  lemma WebhookIsTheAnswer(db: Db, eventId: string, intent: Intent, found: Payment, now: int)
    requires Unique(db)
    ensures var r := WebhookTx(db, eventId, intent, found, now);
      var marked := db.(processed := db.processed + {(STRIPE, eventId)});
      if (STRIPE, eventId) in db.processed then r == Ok(db)
      else
        && (forall i :: 0 <= i < |db.payments| && db.payments[i].intent == Some(intent.id) ==>
             r == ApplyTx(marked, i, found, intent, true, now))
        && (Unlinked(db, intent.id) ==>
             if intent.paymentId.Some? && 0 <= intent.paymentId.value < |db.payments|
             then r == ApplyTx(marked, intent.paymentId.value, found, intent, true, now)
             else r == Ok(marked))
  {
    FindByIntentFinds(db.payments, intent.id);
    hide FindByIntent, ApplyTx;
  }

  /** Somewhere in the run, status was observed of payment p. */
  predicate Saw(db: Db, actions: seq<Action>, p: int, status: IntentStatus)
    decreases |actions|
  {
    actions != []
    && (Observed(db, actions[0], p) == Some(status) || Saw(Exec(db, actions[0]), actions[1..], p, status))
  }

  /** 2 for taken money, 1 for a canceled payment, 0 for one that may still go either way. */
  function Rank(status: PaymentStatus): nat {
    if status.Captured() then 2 else if status.Canceled? then 1 else 0
  }

  function RankSeen(status: Option<IntentStatus>): nat {
    if status == Some(IntentSucceeded) then 2 else if status == Some(IntentCanceled) then 1 else 0
  }

  function Max(a: nat, b: nat): nat {
    if a < b then b else a
  }

  ghost predicate KeepsPayment(p: Payment, q: Payment) {
    SameMoney(p, q) && q.kind == p.kind && (q.status.Captured() ==> q.status == Succeeded || q.status == p.status)
  }

  ghost predicate KeepsPayments(db: Db, db': Db) {
    && |db.payments| <= |db'.payments|
    && forall i :: 0 <= i < |db.payments| ==> KeepsPayment(db.payments[i], db'.payments[i])
  }

  /** The payments' ranks in db' are those in db, payment p's raised to the rank of what was seen of it. */
  ghost predicate Ranked(db: Db, db': Db, seenOf: int, seen: Option<IntentStatus>) {
    && KeepsPayments(db, db')
    && forall i :: 0 <= i < |db.payments| ==>
         Rank(db'.payments[i].status)
         == if i == seenOf then Max(Rank(db.payments[i].status), RankSeen(seen)) else Rank(db.payments[i].status)
  }

  lemma ApplyRanks(db: Db, payment: int, found: Payment, intent: Intent, notify: bool, now: int)
    requires RowsFit(db) && ApplyTx(db, payment, found, intent, notify, now).Ok?
    ensures Ranked(db, ApplyTx(db, payment, found, intent, notify, now).value, payment, Some(intent.status))
  {
    ApplyShape(db, payment, found, intent, notify, now);
  }

  lemma CompletedKeepsPayments(db: Db, source: string, eventId: string, c: Completion, inWarranty: bool, fee: int,
                               known: Option<AppointmentRef>, seen: Option<int>, now: int)
    requires CompletedTx(db, source, eventId, c, inWarranty, fee, known, seen, now).Ok?
    ensures CompletedTx(db, source, eventId, c, inWarranty, fee, known, seen, now).value.payments == db.payments
  {
  }

  lemma WebhookRanks(db: Db, eventId: string, intent: Intent, found: Payment, now: int)
    requires RowsFit(db) && WebhookTx(db, eventId, intent, found, now).Ok? && (STRIPE, eventId) !in db.processed
    ensures var db' := WebhookTx(db, eventId, intent, found, now).value; var payment := PaymentOfIntent(db, intent);
      if payment.Some? then Ranked(db, db', payment.value, Some(intent.status)) else db'.payments == db.payments
  {
    var payment := PaymentOfIntent(db, intent);
    if payment.Some? {
      var marked := db.(processed := db.processed + {(STRIPE, eventId)});
      ApplyRanks(marked, payment.value, found, intent, true, now);
    }
  }

  /** A request, a failure to reach the provider and a new link leave every payment as open as it was. */
  lemma RequestsRankNothing(db: Db, a: Action, p: int)
    requires Transaction(db, a).Ok? && (a.RequestDeposit? || a.PayBalance? || a.MarkFailed? || a.Link?)
    ensures Ranked(db, Exec(db, a), p, None)
  {
    hide FindByKey, FindOpen, PaymentsOf, BalanceAt, IntentOfAnother, AnyDeposit, Payable;
  }

  /** The bookings' events touch no payment. */
  lemma BookingsKeepPayments(db: Db, a: Action)
    requires Transaction(db, a).Ok?
    requires a.OpenBill? || a.OtherWebhook? || a.CopyBooking? || a.BookedEvent? || a.CancelledEvent?
    ensures Exec(db, a).payments == db.payments
  {
    hide PaymentsOf, LiveBill;
  }

  lemma ExecRanks(db: Db, a: Action, p: int)
    requires RowsFit(db) && Unique(db)
    ensures KeepsPayments(db, Exec(db, a))
    ensures IsPayment(db, p) ==>
      Rank(Exec(db, a).payments[p].status) == Max(Rank(db.payments[p].status), RankSeen(Observed(db, a, p)))
  {
    if Transaction(db, a).Ok? {
      if a.OpenBill? || a.OtherWebhook? || a.CopyBooking? || a.BookedEvent? || a.CancelledEvent? {
        BookingsKeepPayments(db, a);
      }
      hide RowsFit, ApplyTx, WebhookTx, CompletedTx, DepositTx, FinalTx, MarkFailedTx, LinkTx, OpenBillTx,
           CancelledTx, BookedTx, PaymentOfIntent, Unique, IsAbout;
      match a
      case Observe(payment, found, intent, notify, now) => ApplyRanks(db, payment, found, intent, notify, now);
      case Webhook(eventId, intent, found, now) =>
        if (STRIPE, eventId) !in db.processed {
          WebhookRanks(db, eventId, intent, found, now);
          PaymentOfIntentIs(db, intent, p);
        } else {
          ProcessedChangesNothing(db, eventId, intent, found, now);
        }
      case CompletedEvent(source, eventId, c, inWarranty, fee, known, seen, now) =>
        CompletedKeepsPayments(db, source, eventId, c, inWarranty, fee, known, seen, now);
      case RequestDeposit(_, _, _) => RequestsRankNothing(db, a, p);
      case PayBalance(_, _) => RequestsRankNothing(db, a, p);
      case MarkFailed(_, _, _) => RequestsRankNothing(db, a, p);
      case Link(_, _, _) => RequestsRankNothing(db, a, p);
      case _ =>
    }
  }

  lemma ProcessedChangesNothing(db: Db, eventId: string, intent: Intent, found: Payment, now: int)
    requires (STRIPE, eventId) in db.processed
    ensures WebhookTx(db, eventId, intent, found, now) == Ok(db)
  {
  }

  lemma KeepsChain(db: Db, next: Db, end: Db)
    requires KeepsPayments(db, next) && KeepsPayments(next, end)
    ensures KeepsPayments(db, end)
  {
    forall i | 0 <= i < |db.payments| ensures KeepsPayment(db.payments[i], end.payments[i]) {
      assert KeepsPayment(db.payments[i], next.payments[i]);
      assert KeepsPayment(next.payments[i], end.payments[i]);
    }
  }

  lemma {:induction false} RunRanks(db: Db, actions: seq<Action>, p: int)
    requires Good(db) && IsPayment(db, p)
    ensures KeepsPayments(db, Run(db, actions)) && IsPayment(Run(db, actions), p)
    ensures var seen := if Saw(db, actions, p, IntentSucceeded) then 2
                        else if Saw(db, actions, p, IntentCanceled) then 1 else 0;
      Rank(Run(db, actions).payments[p].status) == Max(Rank(db.payments[p].status), seen)
    decreases |actions|
  {
    hide Good, Exec, KeepsPayment, Observed, Rank, RankSeen, RowsFit, Unique, KeepsPayments, Run, Saw;
    if actions == [] {
      NothingRan(db, p);
    } else {
      var next := Exec(db, actions[0]);
      GoodHasRows(db);
      ExecRanks(db, actions[0], p);
      ExecKeepsGood(db, actions[0]);
      StillThere(db, next, p);
      RunRanks(next, actions[1..], p);
      KeepsChain(db, next, Run(next, actions[1..]));
      SawFirst(db, actions, p);
    }
  }

  lemma NothingRan(db: Db, p: int)
    ensures Run(db, []) == db && KeepsPayments(db, db)
    ensures !Saw(db, [], p, IntentSucceeded) && !Saw(db, [], p, IntentCanceled)
  {
  }

  lemma StillThere(db: Db, next: Db, p: int)
    requires KeepsPayments(db, next) && IsPayment(db, p)
    ensures IsPayment(next, p)
  {
  }

  lemma SawFirst(db: Db, actions: seq<Action>, p: int)
    requires actions != []
    ensures var next, rest, seen := Exec(db, actions[0]), actions[1..], Observed(db, actions[0], p);
      && Run(db, actions) == Run(next, rest)
      && (Saw(db, actions, p, IntentSucceeded)
          <==> seen == Some(IntentSucceeded) || Saw(next, rest, p, IntentSucceeded))
      && (Saw(db, actions, p, IntentCanceled) <==> seen == Some(IntentCanceled) || Saw(next, rest, p, IntentCanceled))
      && RankSeen(seen) == (if seen == Some(IntentSucceeded) then 2 else if seen == Some(IntentCanceled) then 1 else 0)
  {
    hide Exec, Observed;
  }

  lemma GoodHasRows(db: Db)
    requires Good(db)
    ensures RowsFit(db) && Unique(db)
  {
  }

  /** Whatever else runs, and however stale, repeated or out of order the provider's
      answers arrive: a payment that may still go either way has succeeded, announced
      exactly once, if any answer was a success; otherwise it is canceled if any was
      a cancellation; otherwise it may still go either way. */
  lemma OutcomeIgnoresOrder(db: Db, actions: seq<Action>, p: int)
    requires Good(db) && IsPayment(db, p) && !db.payments[p].IsFinal()
    ensures var end := Run(db, actions); var paid := Saw(db, actions, p, IntentSucceeded);
      && IsPayment(end, p)
      && (end.payments[p].status == Succeeded <==> paid)
      && (end.payments[p].status == Canceled <==> !paid && Saw(db, actions, p, IntentCanceled))
      && (!end.payments[p].IsFinal() <==> !paid && !Saw(db, actions, p, IntentCanceled))
      && Received(end.outbox, p) == if paid then 1 else 0
  {
    RunRanks(db, actions, p);
    RunKeepsGood(db, actions);
    assert KeepsPayment(db.payments[p], Run(db, actions).payments[p]);
  }

  /** In particular from every state that the transactions can reach. */
  lemma EveryPaymentSettles(history: seq<Action>, actions: seq<Action>, p: int)
    requires IsPayment(Run(EMPTY, history), p) && !Run(EMPTY, history).payments[p].IsFinal()
    ensures var db := Run(EMPTY, history);
      var end := Run(db, actions); var paid := Saw(db, actions, p, IntentSucceeded);
      && IsPayment(end, p)
      && (end.payments[p].status == Succeeded <==> paid)
      && (end.payments[p].status == Canceled <==> !paid && Saw(db, actions, p, IntentCanceled))
      && (!end.payments[p].IsFinal() <==> !paid && !Saw(db, actions, p, IntentCanceled))
      && Received(end.outbox, p) == if paid then 1 else 0
  {
    EmptyIsGood();
    RunKeepsGood(EMPTY, history);
    OutcomeIgnoresOrder(Run(EMPTY, history), actions, p);
  }

  // --- When an observation is rolled back ------------------------------------------------

  /** An answer about a payment is rolled back exactly if its intent already belongs to another
      payment, or it would capture money in a currency that is not the bill's. */
  lemma ObservationFailsIff(db: Db, p: int, found: Payment, intent: Intent, notify: bool, now: int)
    requires Good(db) && IsPayment(db, p)
    ensures var next := Target(db, p, found, intent, now); var row := db.payments[p];
      ApplyTx(db, p, found, intent, notify, now).Err? <==>
        || (next != row && IntentOfAnother(db, p, next.intent))
        || (next.status == Succeeded && row.status != Succeeded
            && next.amount.currency != db.bills[row.billId].currency)
  {
    var row := db.payments[p];
    if !row.IsFinal() || (row.status == Canceled && intent.status == IntentSucceeded) {
      var linked := if row.intent.None? then row.(intent := Some(intent.id)) else row;
      var next := Moved(linked, intent, now);
      MovedFits(linked, intent, now);
      assert !IntentOfAnother(db, p, row.intent);
      if !(next == linked && linked.intent == found.intent) {
        assert ApplyTx(db, p, found, intent, notify, now) == RecordTx(db, row, next, found, notify);
        RecordingFailsIff(db, next, found, notify);
      }
    }
  }

  lemma RecordingFailsIff(db: Db, next: Payment, found: Payment, notify: bool)
    requires Good(db) && IsPayment(db, next.id) && SameMoney(db.payments[next.id], next)
    requires !db.payments[next.id].status.Captured() && next.version == db.payments[next.id].version
    ensures RecordTx(db, db.payments[next.id], next, found, notify).Err? <==>
      || IntentOfAnother(db, next.id, next.intent)
      || (next.status == Succeeded && next.amount.currency != db.bills[next.billId].currency)
  {
    if next.status == Succeeded && SavePayment(db, next.id, next).Ok? {
      CapturableIff(db, next);
    }
  }

  const ABROAD := Payment(0, 0, Deposit, Money(1, "E"), RequiresPayment, None, "", None, None, None, None, 0)
  const DEPOSITED := EMPTY.(bills := [NewBill(0, 1, 1, 1, "")], payments := [ABROAD])

  /** It happens: a deposit was asked for in another currency than the bill was opened in, and
      whatever the provider says of its success, and however often, is rolled back. */
  lemma ForeignSuccessIsRolledBack(intent: Intent, found: Payment, notify: bool, now: int)
    requires intent.status == IntentSucceeded
    ensures Reached(DEPOSITED) && ApplyTx(DEPOSITED, 0, found, intent, notify, now).Err?
  {
    var opening := EMPTY.(bills := [NewBill(0, 1, 1, 1, "")]);
    assert Run(EMPTY, []) == EMPTY && Reached(EMPTY);
    assert Exec(EMPTY, OpenBill(1, 1, 1, "")) == opening;
    assert Exec(opening, RequestDeposit(0, Money(1, "E"), "")) == DEPOSITED;
    hide Exec, Run, Reached, Good;
    ReachedNext(EMPTY, OpenBill(1, 1, 1, ""), opening);
    ReachedNext(opening, RequestDeposit(0, Money(1, "E"), ""), DEPOSITED);
    ReachedIsGood(DEPOSITED);
    ObservationFailsIff(DEPOSITED, 0, found, intent, notify, now);
    ForeignTarget(found, intent, now);
  }

  lemma ForeignTarget(found: Payment, intent: Intent, now: int)
    requires intent.status == IntentSucceeded
    ensures Target(DEPOSITED, 0, found, intent, now).status == Succeeded
    ensures Target(DEPOSITED, 0, found, intent, now).amount.currency != DEPOSITED.bills[0].currency
  {
  }

  lemma CapturableIff(db: Db, q: Payment)
    requires Good(db) && IsPayment(db, q.id) && SameMoney(db.payments[q.id], q) && SavePayment(db, q.id, q).Ok?
    requires q.status == Succeeded && !db.payments[q.id].status.Captured()
    ensures SettleTx(SavePayment(db, q.id, q).value, q.billId, q.id).Ok?
       <==> q.amount.currency == db.bills[q.billId].currency
  {
    var saved := SavePayment(db, q.id, q).value;
    var bill := db.bills[q.billId];
    SavingKeepsRows(db, q);
    BalanceIsTheSum(saved, q.billId, bill);
    assert CapturedIn(saved.payments[q.id], bill) <==> q.amount.currency == bill.currency;
    forall i | 0 <= i < |saved.payments| && i != q.id ensures CapturedIn(saved.payments[i], bill) {
      assert CapturedIn(db.payments[i], db.bills[db.payments[i].billId]);
    }
  }

  /** An answer about a payment's own intent, in the bill's currency, always commits. */
  ghost predicate OwnAnswer(db: Db, p: int, a: Action) {
    && IsPayment(db, p) && IsBill(db, db.payments[p].billId)
    && a.Observe? && a.payment == p
    && db.payments[p].intent == Some(a.intent.id)
    && db.payments[p].amount.currency == db.bills[db.payments[p].billId].currency
  }

  lemma OwnAnswerApplies(db: Db, p: int, found: Payment, intent: Intent, notify: bool, now: int)
    requires Good(db) && IsPayment(db, p) && db.payments[p].intent == Some(intent.id)
    requires db.payments[p].amount.currency == db.bills[db.payments[p].billId].currency
    ensures ApplyTx(db, p, found, intent, notify, now).Ok?
  {
    assert !IntentOfAnother(db, p, db.payments[p].intent);
    ObservationFailsIff(db, p, found, intent, notify, now);
  }

  lemma OwnAnswerWrites(db: Db, p: int, a: Action)
    requires OwnAnswer(db, p, a) && db.payments[p].id == p
    requires ApplyTx(db, p, a.found, a.intent, a.notify, a.now).Ok?
    ensures Transaction(db, a).Ok? && Observed(db, a, p) == Some(a.intent.status)
    ensures WritesOnly(db, Exec(db, a), p) && Exec(db, a).payments[p].intent == db.payments[p].intent
  {
    ApplyShape(db, p, a.found, a.intent, a.notify, a.now);
    assert Exec(db, a) == ApplyTx(db, p, a.found, a.intent, a.notify, a.now).value;
  }

  /** What stays true of an answer while others are recorded. */
  lemma StillOwn(db: Db, next: Db, p: int, a: Action)
    requires OwnAnswer(db, p, a) && WritesOnly(db, next, p) && next.payments[p].intent == db.payments[p].intent
    ensures OwnAnswer(next, p, a)
  {
  }

  lemma OwnAnswerCommits(db: Db, p: int, answers: seq<Action>)
    requires Good(db) && answers != [] && forall i :: 0 <= i < |answers| ==> OwnAnswer(db, p, answers[i])
    ensures var next := Exec(db, answers[0]);
      && answers[0].Observe? && Observed(db, answers[0], p) == Some(answers[0].intent.status)
      && Good(next) && WritesOnly(db, next, p)
      && forall i :: 0 <= i < |answers[1..]| ==> OwnAnswer(next, p, answers[1..][i])
  {
    var a, next := answers[0], Exec(db, answers[0]);
    OwnAnswerApplies(db, p, a.found, a.intent, a.notify, a.now);
    OwnAnswerWrites(db, p, a);
    ExecKeepsGood(db, a);
    forall i | 0 <= i < |answers[1..]| ensures OwnAnswer(next, p, answers[1..][i]) {
      StillOwn(db, next, p, answers[i + 1]);
    }
  }

  predicate Answered(answers: seq<Action>, status: IntentStatus) {
    exists i :: 0 <= i < |answers| && answers[i].Observe? && answers[i].intent.status == status
  }

  lemma {:induction false} SawWhatWasAnswered(db: Db, answers: seq<Action>, p: int, status: IntentStatus)
    requires Good(db) && forall i :: 0 <= i < |answers| ==> OwnAnswer(db, p, answers[i])
    ensures Saw(db, answers, p, status) <==> Answered(answers, status)
    decreases |answers|
  {
    if answers != [] {
      var next, rest := Exec(db, answers[0]), answers[1..];
      OwnAnswerCommits(db, p, answers);
      SawWhatWasAnswered(next, rest, p, status);
      AnsweredFirst(answers, status);
    }
  }

  lemma AnsweredFirst(answers: seq<Action>, status: IntentStatus)
    requires answers != []
    ensures Answered(answers, status)
       <==> (answers[0].Observe? && answers[0].intent.status == status) || Answered(answers[1..], status)
  {
    var rest := answers[1..];
    if Answered(answers, status) && !(answers[0].Observe? && answers[0].intent.status == status) {
      var i :| 0 <= i < |answers| && answers[i].Observe? && answers[i].intent.status == status;
      assert rest[i - 1] == answers[i];
    }
  }

  lemma WritesChain(db: Db, next: Db, end: Db, p: int)
    requires IsPayment(db, p) && IsBill(db, db.payments[p].billId) && WritesOnly(db, next, p)
    requires IsPayment(next, p) && IsBill(next, next.payments[p].billId) && WritesOnly(next, end, p)
    ensures WritesOnly(db, end, p)
  {
    var b := db.payments[p].billId;
    assert end.bills[b] == next.bills[b].(status := end.bills[b].status);
    assert next.bills[b] == db.bills[b].(status := next.bills[b].status);
    assert end.bills == db.bills[b := db.bills[b].(status := end.bills[b].status)];
    assert end.payments == db.payments[p := end.payments[p]];
  }

  lemma {:induction false} AnswersWriteOnly(db: Db, p: int, answers: seq<Action>)
    requires Good(db) && IsPayment(db, p) && forall i :: 0 <= i < |answers| ==> OwnAnswer(db, p, answers[i])
    ensures WritesOnly(db, Run(db, answers), p)
    decreases |answers|
  {
    if answers != [] {
      var next := Exec(db, answers[0]);
      OwnAnswerCommits(db, p, answers);
      AnswersWriteOnly(next, p, answers[1..]);
      WritesChain(db, next, Run(db, answers), p);
    }
  }

  /** A list of answers is worth the statuses in it: they decide the payment, what its bill was paid, and the bill. */
  lemma AnswersDecide(db: Db, p: int, answers: seq<Action>)
    requires Good(db) && IsPayment(db, p) && !db.payments[p].IsFinal()
    requires forall i :: 0 <= i < |answers| ==> OwnAnswer(db, p, answers[i])
    ensures var end := Run(db, answers); var b := db.payments[p].billId; var paid := Answered(answers, IntentSucceeded);
      && IsPayment(end, p) && IsBill(end, b)
      && Rank(end.payments[p].status) == (if paid then 2 else if Answered(answers, IntentCanceled) then 1 else 0)
      && Received(end.outbox, p) == (if paid then 1 else 0)
      && end.bills[b] == db.bills[b].(status := Settled(db, p, paid).StatusFor(db.bills[b]))
  {
    SawWhatWasAnswered(db, answers, p, IntentSucceeded);
    SawWhatWasAnswered(db, answers, p, IntentCanceled);
    OutcomeIgnoresOrder(db, answers, p);
    RunKeepsGood(db, answers);
    AnswersWriteOnly(db, p, answers);
    SettledBill(db, Run(db, answers), p);
  }

  lemma SettledBill(db: Db, end: Db, p: int)
    requires RowsFit(db) && IsPayment(db, p) && !db.payments[p].status.Captured()
    requires StatusesFit(end) && WritesOnly(db, end, p)
    ensures var b := db.payments[p].billId;
      end.bills[b] == db.bills[b].(status := Settled(db, p, end.payments[p].status.Captured()).StatusFor(db.bills[b]))
  {
    var b := db.payments[p].billId;
    WrittenSums(db, end, p);
    assert end.bills[b].status == Standing(end, b).StatusFor(end.bills[b]);
  }

  /** Where the bill of a payment that was not captured stands once it is, or is not. */
  function Settled(db: Db, p: int, paid: bool): Balance
    requires IsPayment(db, p) && IsBill(db, db.payments[p].billId)
  {
    var before := Standing(db, db.payments[p].billId);
    before.(paid := before.paid + if paid then db.payments[p].amount.minor else 0)
  }

  /** Two lists of answers that contain the same statuses, in any order and number, come to the same. */
  lemma AnswersCommute(db: Db, p: int, one: seq<Action>, other: seq<Action>)
    requires Good(db) && IsPayment(db, p) && !db.payments[p].IsFinal()
    requires forall i :: 0 <= i < |one| ==> OwnAnswer(db, p, one[i])
    requires forall i :: 0 <= i < |other| ==> OwnAnswer(db, p, other[i])
    requires forall status :: Answered(one, status) <==> Answered(other, status)
    ensures var a, b := Run(db, one), Run(db, other); var bill := db.payments[p].billId;
      && IsPayment(a, p) && IsPayment(b, p) && IsBill(a, bill) && IsBill(b, bill)
      && Rank(a.payments[p].status) == Rank(b.payments[p].status)
      && Received(a.outbox, p) == Received(b.outbox, p)
      && a.bills == b.bills
  {
    AnswersDecide(db, p, one);
    AnswersDecide(db, p, other);
    AnswersWriteOnly(db, p, one);
    AnswersWriteOnly(db, p, other);
  }

  /** The same answer again, about the payment as it now stands, changes nothing: no row, no event. */
  lemma AnswersAreIdempotent(db: Db, p: int, intent: Intent, notify: bool, now: int, again: bool, later: int)
    requires RowsFit(db) && IsPayment(db, p) && ApplyTx(db, p, db.payments[p], intent, notify, now).Ok?
    ensures var once := ApplyTx(db, p, db.payments[p], intent, notify, now).value;
      IsPayment(once, p) && ApplyTx(once, p, once.payments[p], intent, again, later) == Ok(once)
  {
    ApplyShape(db, p, db.payments[p], intent, notify, now);
    var once := ApplyTx(db, p, db.payments[p], intent, notify, now).value;
    var next := Target(db, p, db.payments[p], intent, now);
    TargetStays(db.payments[p], next, once.payments[p].version, intent, now, later);
    assert once.payments[p].(id := p) == once.payments[p];
  }

  lemma TargetStays(row: Payment, next: Payment, version: nat, intent: Intent, now: int, later: int)
    requires next == row || (var linked := if row.intent.None? then row.(intent := Some(intent.id)) else row;
                             next == Moved(linked, intent, now))
    requires next == row && row.IsFinal() ==> !(row.status == Canceled && intent.status == IntentSucceeded)
    requires next == row && !row.IsFinal() ==> row.intent.Some? && Moved(row, intent, now) == row
    ensures var stored := next.(version := version);
      || (stored.IsFinal() && !(stored.status == Canceled && intent.status == IntentSucceeded))
      || (stored.intent.Some? && Moved(stored, intent, later) == stored)
  {
  }

  // --- Idempotency keys -------------------------------------------------------------------

  lemma FindByKeyIsThe(payments: seq<Payment>, key: string, i: nat)
    requires i < |payments| && payments[i].key == key
    requires forall j, k :: 0 <= j < k < |payments| ==> payments[j].key != payments[k].key
    ensures FindByKey(payments, key) == Some(i)
  {
    FindByKeyFinds(payments, key);
  }

  /** The payment a key created is found under that key for ever, for the same money on the same bill. */
  lemma KeysKeepTheirPayment(db: Db, actions: seq<Action>, key: string)
    requires Good(db) && FindByKey(db.payments, key).Some?
    ensures var i := FindByKey(db.payments, key).value; var end := Run(db, actions).payments;
      && 0 <= i < |db.payments| && i < |end|
      && FindByKey(end, key) == Some(i)
      && end[i].billId == db.payments[i].billId && end[i].amount == db.payments[i].amount
      && end[i].kind == db.payments[i].kind
  {
    var i := FindByKey(db.payments, key).value;
    FindByKeyFinds(db.payments, key);
    RunRanks(db, actions, i);
    RunKeepsGood(db, actions);
    assert KeepsPayment(db.payments[i], Run(db, actions).payments[i]);
    FindByKeyIsThe(Run(db, actions).payments, key, i);
  }

  /** A key creates at most one payment: a request that was decided too late to see it adds none. */
  lemma UsedKeysCreateNothing(db: Db, a: Action)
    requires (a.RequestDeposit? || a.PayBalance?) && FindByKey(db.payments, a.key).Some?
    ensures Exec(db, a) == db
  {
  }

  // --- BillReady ------------------------------------------------------------------------------

  /** A bill is announced with its final total, of which something is due. */
  predicate Announces(e: Event, db: Db) {
    e.BillReady? ==>
      IsBill(db, e.bill) && db.bills[e.bill].Priced() && e.total == db.bills[e.bill].Total()
      && e.held + e.balanceDue == e.total && e.balanceDue > 0
  }

  predicate SameBillReady(e: Event, f: Event) {
    e.BillReady? && f.BillReady? && e.bill == f.bill
  }

  ghost predicate ReadyOnce(db: Db) {
    && (forall i :: 0 <= i < |db.outbox| ==> Announces(db.outbox[i], db))
    && (forall i, j :: 0 <= i < j < |db.outbox| ==> !SameBillReady(db.outbox[i], db.outbox[j]))
  }

  /** From db to db' at most one event is written, and a BillReady only for a bill that was not priced in db. */
  ghost predicate WritesOne(db: Db, db': Db) {
    db'.outbox == db.outbox
    || (|db'.outbox| == |db.outbox| + 1 && db.outbox == db'.outbox[..|db.outbox|]
        && var e := db'.outbox[|db.outbox|];
           Announces(e, db') && (e.BillReady? ==> e.bill >= |db.bills| || db.bills[e.bill].status == Open))
  }

  lemma ApplyWritesOne(db: Db, payment: int, found: Payment, intent: Intent, notify: bool, now: int)
    requires ApplyTx(db, payment, found, intent, notify, now).Ok?
    ensures WritesOne(db, ApplyTx(db, payment, found, intent, notify, now).value)
  {
  }

  lemma PricingWritesOne(db: Db, b: int, c: Completion, inWarranty: bool, fee: int, now: int)
    requires PriceCompleted(db, b, c, inWarranty, fee, now).Ok? && RowsFit(db) && CurrenciesFit(db)
    ensures WritesOne(db, PriceCompleted(db, b, c, inWarranty, fee, now).value)
  {
    if db.bills[b].status == Open {
      var lines := PricedLines(c.services, inWarranty, fee);
      BalanceIsTheSum(db, b, Price(db.bills[b], lines, now));
      PricedBillFits(db, b, lines, now);
    }
  }

  lemma CompletedWritesOne(db: Db, source: string, eventId: string, c: Completion, inWarranty: bool, fee: int,
                           known: Option<AppointmentRef>, seen: Option<int>, now: int)
    requires Good(db) && CompletedTx(db, source, eventId, c, inWarranty, fee, known, seen, now).Ok?
    ensures WritesOne(db, CompletedTx(db, source, eventId, c, inWarranty, fee, known, seen, now).value)
  {
    if (source, eventId) !in db.processed {
      var noted := NoteCompleted(db, source, eventId, c, known);
      BookkeepingKeepsGood(db, noted);
      if seen.Some? {
        PricingWritesOne(noted, seen.value, c, inWarranty, fee, now);
      } else {
        OpeningKeepsGood(noted, c.appointment, c.customer, c.vehicle, c.currency);
        var created := OpenBillTx(noted, c.appointment, c.customer, c.vehicle, c.currency).value;
        PricingWritesOne(created.db, created.row, c, inWarranty, fee, now);
      }
    }
  }

  lemma WebhookWritesOne(db: Db, eventId: string, intent: Intent, found: Payment, now: int)
    requires WebhookTx(db, eventId, intent, found, now).Ok?
    ensures WritesOne(db, WebhookTx(db, eventId, intent, found, now).value)
  {
    hide ApplyTx, WritesOne, PaymentOfIntent;
    var payment := PaymentOfIntent(db, intent);
    var marked := db.(processed := db.processed + {(STRIPE, eventId)});
    if (STRIPE, eventId) !in db.processed && payment.Some? {
      ApplyWritesOne(marked, payment.value, found, intent, true, now);
      MarkedWritesOne(db, marked, WebhookTx(db, eventId, intent, found, now).value);
    } else {
      SilentWritesOne(db, WebhookTx(db, eventId, intent, found, now).value);
    }
  }

  lemma SilentWritesOne(db: Db, db': Db)
    requires db'.outbox == db.outbox
    ensures WritesOne(db, db')
  {
  }

  lemma MarkedWritesOne(db: Db, marked: Db, db': Db)
    requires marked.outbox == db.outbox && marked.bills == db.bills && WritesOne(marked, db')
    ensures WritesOne(db, db')
  {
  }

  /** Requests, failures, links and the other events of a booking say nothing. */
  lemma OthersAreSilent(db: Db, a: Action)
    requires Transaction(db, a).Ok? && !a.Observe? && !a.Webhook? && !a.CompletedEvent?
    ensures Exec(db, a).outbox == db.outbox
  {
    hide FindByKey, FindOpen, PaymentsOf, BalanceAt, IntentOfAnother, LiveBill, AnyDeposit;
  }

  lemma ExecWritesOne(db: Db, a: Action)
    requires Good(db)
    ensures WritesOne(db, Exec(db, a))
  {
    if Transaction(db, a).Ok? && !a.Observe? && !a.Webhook? && !a.CompletedEvent? {
      OthersAreSilent(db, a);
    }
    hide Good, ApplyTx, WebhookTx, CompletedTx, DepositTx, FinalTx, MarkFailedTx, LinkTx, OpenBillTx, CancelledTx,
         BookedTx;
    if Transaction(db, a).Ok? {
      match a
      case Observe(payment, found, intent, notify, now) => ApplyWritesOne(db, payment, found, intent, notify, now);
      case Webhook(eventId, intent, found, now) => WebhookWritesOne(db, eventId, intent, found, now);
      case CompletedEvent(source, eventId, c, inWarranty, fee, known, seen, now) =>
        CompletedWritesOne(db, source, eventId, c, inWarranty, fee, known, seen, now);
      case _ =>
    }
  }

  lemma ReadyOnceStays(db: Db, db': Db)
    requires ReadyOnce(db) && WritesOne(db, db') && BillsFrozen(db, db')
    ensures ReadyOnce(db')
  {
    forall i | 0 <= i < |db.outbox| ensures db'.outbox[i] == db.outbox[i] && Announces(db.outbox[i], db') {
      assert Announces(db.outbox[i], db);
      if db.outbox[i].BillReady? {
        assert Frozen(db.bills[db.outbox[i].bill], db'.bills[db.outbox[i].bill]);
      }
    }
  }

  /** In any run a bill is announced ready at most once, after it is priced, with the total it
      keeps for ever, and only if part of that total was then still due. */
  lemma {:induction false} BillsAreReadyOnce(db: Db, actions: seq<Action>)
    requires Good(db) && ReadyOnce(db)
    ensures ReadyOnce(Run(db, actions))
    decreases |actions|
  {
    if actions != [] {
      ExecWritesOne(db, actions[0]);
      ExecFreezes(db, actions[0]);
      ReadyOnceStays(db, Exec(db, actions[0]));
      ExecKeepsGood(db, actions[0]);
      BillsAreReadyOnce(Exec(db, actions[0]), actions[1..]);
    }
  }

  /** In every reachable state no bill was announced ready twice, and each announcement still holds. */
  lemma EveryBillIsReadyOnce(actions: seq<Action>)
    ensures ReadyOnce(Run(EMPTY, actions))
  {
    EmptyIsGood();
    BillsAreReadyOnce(EMPTY, actions);
  }

  // --- New payments -----------------------------------------------------------------------

  /** The last payment of created is new: FINAL, for all that bill owed on db. */
  ghost predicate AsksForTheBalance(db: Db, created: Db, bill: int, key: string) {
    && IsBill(db, bill) && |created.payments| == |db.payments| + 1
    && var p := created.payments[|db.payments|];
       p.kind == Final && p.billId == bill && p.key == key && p.amount.minor == Standing(db, bill).Due() > 0
  }

  /** The bill is paid, and nothing is owed back. */
  ghost predicate PaidExactly(db: Db, bill: int) {
    IsBill(db, bill) && db.bills[bill].status == Paid && Standing(db, bill).RefundDue() == 0
  }

  /** A new FINAL payment is for all that is owed, while nothing else is being charged;
      if it is the next one to succeed, the bill is paid with nothing due back. */
  lemma NewFinalPaymentClosesTheBill(db: Db, bill: int, key: string, found: Payment, intent: Intent, notify: bool,
                                     now: int)
    requires Good(db) && FinalTx(db, bill, key).Ok? && FinalTx(db, bill, key).value.row == |db.payments|
    requires intent.status == IntentSucceeded
    requires ApplyTx(FinalTx(db, bill, key).value.db, |db.payments|, found, intent, notify, now).Ok?
    ensures var created := FinalTx(db, bill, key).value.db;
      && AsksForTheBalance(db, created, bill, key)
      && (forall i :: 0 <= i < |db.payments| && db.payments[i].billId == bill ==> db.payments[i].status != Processing)
      && PaidExactly(ApplyTx(created, |db.payments|, found, intent, notify, now).value, bill)
  {
    var created := FinalTx(db, bill, key).value.db;
    var after := ApplyTx(created, |db.payments|, found, intent, notify, now).value;
    hide *;
    NewFinalPaymentIsTheBalance(db, bill, key);
    FinalKeepsGood(db, bill, key);
    GoodHasRows(db);
    GoodHasRows(created);
    ApplyKeepsGood(created, |db.payments|, found, intent, notify, now);
    SuccessAdds(created, |db.payments|, found, intent, notify, now);
    StatusFits(after, bill);
    ClosedByBalance(db, created, after, bill, key);
  }

  lemma ClosedByBalance(db: Db, created: Db, after: Db, bill: int, key: string)
    requires RowsFit(db) && RowsFit(created)
    requires IsBill(db, bill) && db.bills[bill].Priced() && Standing(db, bill).Due() > 0
    requires created == db.(payments := created.payments) && |created.payments| == |db.payments| + 1
    requires created.payments == db.payments + [Payment(|db.payments|, bill, Final,
      Money(Standing(db, bill).Due(), db.bills[bill].currency), RequiresPayment, None, key, None, None, None, None, 0)]
    requires IsBill(after, bill) && after.bills[bill].Priced()
    requires Standing(after, bill) == Settled(created, |db.payments|, true)
    requires after.bills[bill].status == Standing(after, bill).StatusFor(after.bills[bill])
    ensures AsksForTheBalance(db, created, bill, key) && PaidExactly(after, bill)
  {
    PaidSumAfterInsert(db.payments, created.payments[|db.payments|], bill);
    RefundsAreAsBefore(db, created, bill);
    hide RowsFit, PaidSum, RefundsOf, RefundedSum;
  }

  lemma RefundsAreAsBefore(db: Db, created: Db, bill: int)
    requires RowsFit(db) && created.refunds == db.refunds && |db.payments| <= |created.payments|
    requires created.payments[..|db.payments|] == db.payments
    ensures RefundsOf(created, created.refunds, bill) == RefundsOf(db, db.refunds, bill)
  {
    assert forall i :: 0 <= i < |db.payments| ==> created.payments[..|db.payments|][i] == created.payments[i];
    RefundsStay(db, created, db.refunds, bill);
  }

  lemma StatusFits(db: Db, bill: int)
    requires Good(db) && IsBill(db, bill)
    ensures db.bills[bill].status == Standing(db, bill).StatusFor(db.bills[bill])
  {
  }

  lemma PaymentsOfHas(payments: seq<Payment>, bill: int, i: nat)
    requires i < |payments| && payments[i].billId == bill
    ensures payments[i] in PaymentsOf(payments, bill)
  {
    if i < |payments| - 1 {
      PaymentsOfHas(payments[..|payments| - 1], bill, i);
    }
  }

  lemma {:induction false} PaymentsOfAre(payments: seq<Payment>, bill: int)
    ensures forall p :: p in PaymentsOf(payments, bill) ==> p in payments && p.billId == bill
  {
    if payments != [] {
      PaymentsOfAre(payments[..|payments| - 1], bill);
    }
  }

  /** A decision that adds a row found the bill payable and nothing open for what is due. */
  lemma FinalUnfolds(db: Db, bill: int, key: string)
    requires FinalTx(db, bill, key).Ok?
    ensures IsBill(db, bill) && Payable(db, db.bills[bill]).Ok?
    ensures var due := Money(Payable(db, db.bills[bill]).value, db.bills[bill].currency);
      var open := FindOpen(PaymentsOf(db.payments, bill), Final, due);
      FinalTx(db, bill, key)
      == if open.Some? then Ok(Outcome(db, open.value)) else InsertPayment(db, bill, Final, due, key)
  {
    hide Payable, FindOpen, PaymentsOf, FindByKey;
  }

  lemma PayableUnfolds(db: Db, bill: Bill)
    requires Payable(db, bill).Ok?
    ensures bill.Priced() && BalanceAt(db, bill).Ok? && Payable(db, bill).value == BalanceAt(db, bill).value.Due() > 0
    ensures forall p :: p in PaymentsOf(db.payments, bill.id) ==> p.status != Processing
  {
    hide BalanceAt, PaymentsOf;
    var all := PaymentsOf(db.payments, bill.id);
    forall p | p in all ensures p.status != Processing {
      var k :| 0 <= k < |all| && all[k] == p;
    }
  }

  lemma PayableMeans(db: Db, bill: int)
    requires Good(db) && IsBill(db, bill) && Payable(db, db.bills[bill]).Ok?
    ensures db.bills[bill].Priced() && Payable(db, db.bills[bill]).value == Standing(db, bill).Due() > 0
    ensures forall i :: 0 <= i < |db.payments| && db.payments[i].billId == bill ==> db.payments[i].status != Processing
  {
    GoodHasRows(db);
    assert db.bills[bill].id == bill;
    hide *;
    StatusIsDerived(db, bill);
    PayableUnfolds(db, db.bills[bill]);
    forall i | 0 <= i < |db.payments| && db.payments[i].billId == bill ensures db.payments[i].status != Processing {
      PaymentsOfHas(db.payments, bill, i);
    }
  }

  lemma NewFinalPaymentIsTheBalance(db: Db, bill: int, key: string)
    requires Good(db) && FinalTx(db, bill, key).Ok? && FinalTx(db, bill, key).value.row == |db.payments|
    ensures IsBill(db, bill) && db.bills[bill].Priced() && Standing(db, bill).Due() > 0
    ensures var created := FinalTx(db, bill, key).value.db;
      && |created.payments| == |db.payments| + 1 && created == db.(payments := created.payments)
      && created.payments == db.payments
         + [Payment(|db.payments|, bill, Final, Money(Standing(db, bill).Due(), db.bills[bill].currency),
                    RequiresPayment, None, key, None, None, None, None, 0)]
      && created.payments[..|db.payments|] == db.payments
    ensures forall i :: 0 <= i < |db.payments| && db.payments[i].billId == bill ==> db.payments[i].status != Processing
  {
    FinalUnfolds(db, bill, key);
    PayableMeans(db, bill);
    GoodHasRows(db);
    hide Good, FinalTx, Payable, Standing, FindByKey;
    var due := Money(Payable(db, db.bills[bill]).value, db.bills[bill].currency);
    FindOpenFinds(PaymentsOf(db.payments, bill), Final, due);
    PaymentsOfAre(db.payments, bill);
  }

  /** A first success adds exactly the payment's amount to what its bill was paid. */
  lemma SuccessAdds(db: Db, p: int, found: Payment, intent: Intent, notify: bool, now: int)
    requires RowsFit(db) && IsPayment(db, p) && !db.payments[p].status.Captured() && intent.status == IntentSucceeded
    requires ApplyTx(db, p, found, intent, notify, now).Ok?
    ensures var after := ApplyTx(db, p, found, intent, notify, now).value; var b := db.payments[p].billId;
      && IsPayment(after, p) && after.payments[p].billId == b && IsBill(after, b)
      && Standing(after, b) == Settled(db, p, true)
      && (after.bills[b].Priced() <==> db.bills[b].Priced())
  {
    var after := ApplyTx(db, p, found, intent, notify, now).value;
    ApplyShape(db, p, found, intent, notify, now);
    WrittenSums(db, after, p);
  }

  lemma WrittenSums(db: Db, after: Db, p: int)
    requires RowsFit(db) && IsPayment(db, p) && !db.payments[p].status.Captured() && WritesOnly(db, after, p)
    ensures Standing(after, db.payments[p].billId) == Settled(db, p, after.payments[p].status.Captured())
  {
    var b := db.payments[p].billId;
    PaidSumAfterUpdate(db.payments, p, after.payments[p], b);
    RefundsStay(db, after, db.refunds, b);
    assert after.bills[b].Priced() <==> db.bills[b].Priced();
  }

  /** A new deposit is only taken for an unpriced bill that has none paid or in the works. */
  lemma NewDepositIsTheOnlyOne(db: Db, bill: int, amount: Money, key: string)
    requires Good(db) && DepositTx(db, bill, amount, key).Ok?
    ensures IsBill(db, bill) && db.bills[bill].status == Open
    ensures forall i :: 0 <= i < |db.payments| && db.payments[i].billId == bill && db.payments[i].kind == Deposit ==>
      !db.payments[i].status.Captured() && db.payments[i].status != Processing
    ensures var r := DepositTx(db, bill, amount, key).value;
      && 0 <= r.row < |r.db.payments| && r.db.payments[r.row].kind == Deposit
      && r.db.payments[r.row].billId == bill && r.db.payments[r.row].amount == amount
      && r.db.payments[r.row].status == RequiresPayment
  {
    var all := PaymentsOf(db.payments, bill);
    PaymentsOfAre(db.payments, bill);
    FindOpenFinds(all, Deposit, amount);
    forall i | 0 <= i < |db.payments| && db.payments[i].billId == bill && db.payments[i].kind == Deposit
      ensures !db.payments[i].status.Captured() && db.payments[i].status != Processing
    {
      PaymentsOfHas(db.payments, bill, i);
    }
  }
}
