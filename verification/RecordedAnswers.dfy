/** What recording one of the provider's answers comes to, row by row. */
module RecordedAnswers {
  import opened Prelude
  import opened Balances
  import opened Settlement
  import opened SettlementRuns
  import opened SettlementOutcomes

  /** Until its money is taken an answer can move a payment; a success can even after it was canceled. */
  predicate StillMoves(p: Payment, intent: Intent) {
    || p.status in {RequiresPayment, Processing, FailedPayment}
    || (p.status == Canceled && intent.status == IntentSucceeded)
  }

  /** The intent a payment has once an answer was recorded of it: the first one. */
  function LinkOf(p: Payment, intent: Intent): Option<string> {
    if p.intent.Some? then p.intent else Some(intent.id)
  }

  /** What the answer says of the payment is stored already. */
  predicate SaysNothingNew(p: Payment, intent: Intent) {
    match intent.status
    case IntentSucceeded | IntentCanceled => false
    case IntentProcessing => p.status == Processing && p.failureCode.None? && p.failureMessage.None?
    case RequiresMethod =>
      intent.failureCode.Some? ==>
        && p.status == RequiresPayment
        && p.failureCode == intent.failureCode && p.failureMessage == intent.failureMessage
    case OtherStatus => true
  }

  /** ... and was, with its intent, when the payment was read. */
  predicate KnewIt(p: Payment, found: Payment, intent: Intent) {
    SaysNothingNew(p, intent) && found.intent == LinkOf(p, intent)
  }

  /** How the answer's status moves the payment. */
  predicate MovedBy(p: Payment, q: Payment, intent: Intent, now: int) {
    match intent.status
    case IntentSucceeded =>
      && q.status == Succeeded && q.failureCode.None? && q.failureMessage.None?
      && q.card == intent.card && q.succeededAt == Some(now)
    case IntentProcessing =>
      && q.status == Processing && q.failureCode.None? && q.failureMessage.None?
      && q.card == p.card && q.succeededAt == p.succeededAt
    case IntentCanceled =>
      && q.status == Canceled && q.failureCode == intent.failureCode && q.failureMessage == intent.failureMessage
      && q.card == p.card && q.succeededAt == p.succeededAt
    case RequiresMethod =>
      && q.card == p.card && q.succeededAt == p.succeededAt
      && (if intent.failureCode.None?
          then q.status == p.status && q.failureCode == p.failureCode && q.failureMessage == p.failureMessage
          else q.status == RequiresPayment
               && q.failureCode == intent.failureCode && q.failureMessage == intent.failureMessage)
    case OtherStatus =>
      && q.status == p.status && q.failureCode == p.failureCode && q.failureMessage == p.failureMessage
      && q.card == p.card && q.succeededAt == p.succeededAt
  }

  /** A decline that the payment did not carry when it was read. */
  predicate Declines(q: Payment, found: Payment) {
    && q.status == RequiresPayment && q.failureCode.Some?
    && (q.failureCode != found.failureCode || q.failureMessage != found.failureMessage)
  }

  /** The event a recorded answer publishes, if any. */
  function Told(db: Db, p: int, q: Payment, found: Payment, intent: Intent, notify: bool): seq<Event>
    requires IsPayment(db, p) && IsBill(db, db.payments[p].billId)
  {
    var b := db.payments[p].billId;
    if intent.status == IntentSucceeded then
      var paid := Settled(db, p, true);
      var status := paid.StatusFor(db.bills[b]);
      [PaymentReceived(p, b, status, if status == Open then None else Some(paid.Due()))]
    else if notify && Declines(q, found) then [PaymentFailed(p, q.failureCode, q.failureMessage)]
    else []
  }

  /** A recorded answer writes its payment, and its bill's status if the money was taken, and
      tells of a success or of a new decline; anything else it leaves alone. */
  lemma AnswerWrites(db: Db, p: int, found: Payment, intent: Intent, notify: bool, now: int)
    requires Good(db) && IsPayment(db, p) && ApplyTx(db, p, found, intent, notify, now).Ok?
    ensures IsBill(db, db.payments[p].billId)
    ensures var end := ApplyTx(db, p, found, intent, notify, now).value; var before := db.payments[p];
      if !StillMoves(before, intent) || KnewIt(before, found, intent) then end == db
      else
        && WritesOnly(db, end, p) && end.refs == db.refs && end.processed == db.processed
        && MovedBy(before, end.payments[p], intent, now)
        && end.payments[p].intent == LinkOf(before, intent)
        && end.outbox == db.outbox + Told(db, p, end.payments[p], found, intent, notify)
        && (intent.status == IntentSucceeded ==>
             end.bills[before.billId].status == Settled(db, p, true).StatusFor(db.bills[before.billId]))
        && (intent.status != IntentSucceeded ==> end.bills == db.bills)
  {
    GoodHasRows(db);
    var before := db.payments[p];
    assert before.id == p && before.(id := p) == before;
    if StillMoves(before, intent) && !KnewIt(before, found, intent) {
      var next := Moved(before.(intent := LinkOf(before, intent)), intent, now);
      MovedIs(before, found, intent, now);
      ApplyIsRecord(db, p, found, intent, notify, now);
      hide Good;
      if intent.status == IntentSucceeded {
        SuccessIsTold(db, next, found, notify);
      } else {
        RecordShape(db, p, next, found, notify);
        OtherwiseTold(db, p, next, found, notify);
      }
    }
  }

  lemma MovedIs(p: Payment, found: Payment, intent: Intent, now: int)
    requires StillMoves(p, intent)
    ensures var linked := p.(intent := LinkOf(p, intent)); var next := Moved(linked, intent, now);
      && MovedBy(p, next, intent, now) && MovedBy(p, next.(version := next.version + 1), intent, now)
      && next.intent == LinkOf(p, intent) && SameMoney(p, next) && next.kind == p.kind && next.version == p.version
      && (next == linked <==> SaysNothingNew(p, intent))
  {
  }

  lemma ApplyIsRecord(db: Db, p: int, found: Payment, intent: Intent, notify: bool, now: int)
    requires IsPayment(db, p) && IsBill(db, db.payments[p].billId) && db.payments[p].id == p
    requires StillMoves(db.payments[p], intent) && !KnewIt(db.payments[p], found, intent)
    ensures var next := Moved(db.payments[p].(intent := LinkOf(db.payments[p], intent)), intent, now);
      ApplyTx(db, p, found, intent, notify, now) == RecordTx(db, db.payments[p], next, found, notify)
  {
    var before := db.payments[p];
    MovedIs(before, found, intent, now);
    assert before.(id := p) == before;
    assert before.intent.Some? ==> before.(intent := before.intent) == before;
    hide RecordTx, Moved;
  }

  lemma OtherwiseTold(db: Db, p: int, next: Payment, found: Payment, notify: bool)
    requires IsPayment(db, p) && IsBill(db, db.payments[p].billId) && db.payments[p].id == p
    requires next.status != Succeeded && RecordTx(db, db.payments[p], next, found, notify).Ok?
    ensures var end := RecordTx(db, db.payments[p], next, found, notify).value;
      && end.bills == db.bills && end.refs == db.refs && end.processed == db.processed
      && end.outbox == db.outbox + if notify && Declines(next, found)
                                   then [PaymentFailed(p, next.failureCode, next.failureMessage)] else []
  {
  }

  lemma SuccessIsTold(db: Db, next: Payment, found: Payment, notify: bool)
    requires RowsFit(db) && CurrenciesFit(db) && IsPayment(db, next.id)
    requires SameMoney(db.payments[next.id], next) && next.kind == db.payments[next.id].kind
    requires next.status == Succeeded && !db.payments[next.id].status.Captured()
    requires RecordTx(db, db.payments[next.id], next, found, notify).Ok?
    ensures var end := RecordTx(db, db.payments[next.id], next, found, notify).value;
      var b := db.payments[next.id].billId; var paid := Settled(db, next.id, true);
      var status := paid.StatusFor(db.bills[b]);
      && WritesOnly(db, end, next.id) && end.payments[next.id] == next.(version := next.version + 1)
      && end.refs == db.refs && end.processed == db.processed && end.bills[b].status == status
      && end.outbox == db.outbox
         + [PaymentReceived(next.id, b, status, if status == Open then None else Some(paid.Due()))]
  {
    var p := next.id;
    RecordShape(db, p, next, found, notify);
    SuccessSettles(db, next, found, notify);
    CaptureIs(db, next);
    CapturingFitsCurrency(db, next);
    SavedStanding(db, next);
    SettleIs(Saved(db, next), next.billId, p);
  }

  lemma SuccessSettles(db: Db, next: Payment, found: Payment, notify: bool)
    requires RowsFit(db) && CurrenciesFit(db) && IsPayment(db, next.id) && SameMoney(db.payments[next.id], next)
    requires next.status == Succeeded && !db.payments[next.id].status.Captured()
    requires RecordTx(db, db.payments[next.id], next, found, notify).Ok?
    ensures Captures(db, next)
    ensures RecordTx(db, db.payments[next.id], next, found, notify).value == AfterCapture(db, next)
  {
    hide SettleTx, SavePayment, RowsFit, CurrenciesFit;
  }

  lemma SavedStanding(db: Db, q: Payment)
    requires Captures(db, q)
    ensures IsBill(db, q.billId) && db.payments[q.id].billId == q.billId
    ensures IsBill(Saved(db, q), q.billId) && Standing(Saved(db, q), q.billId) == Settled(db, q.id, true)
  {
    CaptureIs(db, q);
    var saved := Saved(db, q);
    PaidSumAfterUpdate(db.payments, q.id, saved.payments[q.id], q.billId);
    RefundsStay(db, saved, db.refunds, q.billId);
    hide Captures, Saved, PaidSum, RefundedSum, RefundsOf;
  }

  lemma SettleIs(db: Db, b: int, payment: int)
    requires IsBill(db, b) && SettleTx(db, b, payment).Ok? && BalanceAt(db, db.bills[b]).Ok?
    ensures var end := SettleTx(db, b, payment).value; var balance := BalanceAt(db, db.bills[b]).value;
      var status := balance.StatusFor(db.bills[b]);
      && end.bills[b].status == status && end.refs == db.refs && end.processed == db.processed
      && end.outbox == db.outbox
         + [PaymentReceived(payment, b, status, if status == Open then None else Some(balance.Due()))]
  {
    hide BalanceAt;
  }

  /** An answer is rolled back exactly if it can still move its payment and would link it to the intent
      of another, or take money in a currency that is not the bill's. */
  lemma AnswerFailsIff(db: Db, p: int, found: Payment, intent: Intent, notify: bool, now: int)
    requires Good(db) && IsPayment(db, p)
    ensures IsBill(db, db.payments[p].billId)
    ensures var before := db.payments[p];
      ApplyTx(db, p, found, intent, notify, now).Err? <==>
        && StillMoves(before, intent) && !KnewIt(before, found, intent)
        && (|| (before.intent.None? && exists i :: 0 <= i < |db.payments| && db.payments[i].intent == Some(intent.id))
            || (intent.status == IntentSucceeded && before.amount.currency != db.bills[before.billId].currency))
  {
    GoodHasRows(db);
    var before := db.payments[p];
    assert before.id == p && before.(id := p) == before;
    if StillMoves(before, intent) && !KnewIt(before, found, intent) {
      var next := Moved(before.(intent := LinkOf(before, intent)), intent, now);
      MovedIs(before, found, intent, now);
      ApplyIsRecord(db, p, found, intent, notify, now);
      RecordingFailsIff(db, next, found, notify);
      assert next.status == Succeeded <==> intent.status == IntentSucceeded;
      LinkIsTaken(db, p, intent);
    } else {
      hide Moved, RecordTx, Good;
      SkippedIsOk(db, p, found, intent, notify, now);
    }
  }

  lemma LinkIsTaken(db: Db, p: int, intent: Intent)
    requires Unique(db) && IsPayment(db, p)
    ensures IntentOfAnother(db, p, LinkOf(db.payments[p], intent)) <==>
      db.payments[p].intent.None? && exists i :: 0 <= i < |db.payments| && db.payments[i].intent == Some(intent.id)
  {
    if IntentOfAnother(db, p, LinkOf(db.payments[p], intent)) {
      var i :| 0 <= i < |db.payments| && i != p && db.payments[i].intent == LinkOf(db.payments[p], intent);
      assert db.payments[p].intent.None?;
    }
  }

  lemma SkippedIsOk(db: Db, p: int, found: Payment, intent: Intent, notify: bool, now: int)
    requires IsPayment(db, p) && IsBill(db, db.payments[p].billId) && db.payments[p].id == p
    requires !StillMoves(db.payments[p], intent) || KnewIt(db.payments[p], found, intent)
    ensures ApplyTx(db, p, found, intent, notify, now) == Ok(db)
  {
    var before := db.payments[p];
    assert before.(id := p) == before;
    assert before.intent.Some? ==> before.(intent := before.intent) == before;
    if StillMoves(before, intent) {
      MovedIs(before, found, intent, now);
    }
    hide RecordTx, Moved;
  }

  /** A committed webhook that reports a success leaves its payment, linked to the intent, with its
      money taken and announced exactly once. */
  lemma WebhookSuccessIsTaken(db: Db, eventId: string, intent: Intent, found: Payment, now: int, p: int)
    requires Good(db) && (STRIPE, eventId) !in db.processed && intent.status == IntentSucceeded
    requires 0 <= p < |db.payments|
    requires db.payments[p].intent == Some(intent.id) || (Unlinked(db, intent.id) && intent.paymentId == Some(p))
    requires WebhookTx(db, eventId, intent, found, now).Ok?
    ensures var end := WebhookTx(db, eventId, intent, found, now).value;
      && (STRIPE, eventId) in end.processed
      && |end.payments| == |db.payments| && end.payments[p].status in {Succeeded, Refunded, PartiallyRefunded}
      && Received(end.outbox, p) == 1
  {
    var marked := db.(processed := db.processed + {(STRIPE, eventId)});
    GoodHasRows(db);
    WebhookIsTheAnswer(db, eventId, intent, found, now);
    assert WebhookTx(db, eventId, intent, found, now) == ApplyTx(marked, p, found, intent, true, now);
    hide *;
    BookkeepingKeepsGood(db, marked);
    SuccessIsTaken(marked, p, found, intent, now);
  }

  lemma SuccessIsTaken(db: Db, p: int, found: Payment, intent: Intent, now: int)
    requires Good(db) && 0 <= p < |db.payments| && intent.status == IntentSucceeded
    requires ApplyTx(db, p, found, intent, true, now).Ok?
    ensures var end := ApplyTx(db, p, found, intent, true, now).value;
      && end.processed == db.processed && |end.payments| == |db.payments|
      && end.payments[p].status in {Succeeded, Refunded, PartiallyRefunded} && Received(end.outbox, p) == 1
  {
    AnswerWrites(db, p, found, intent, true, now);
    ApplyKeepsGood(db, p, found, intent, true, now);
    hide ApplyTx, Good, Settled, Received, Told;
    ReceivedIfTaken(ApplyTx(db, p, found, intent, true, now).value, p);
  }

  lemma ReceivedIfTaken(db: Db, p: int)
    requires Good(db) && IsPayment(db, p) && db.payments[p].status.Captured()
    ensures Received(db.outbox, p) == 1
  {
    assert EventsFit(db);
    hide Good, RowsFit, CurrenciesFit, StatusesFit, Unique, Received;
  }
}
