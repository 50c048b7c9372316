/** scheduler's three topics as billing handles them, one delivery at a time.

    A handler runs on its own here, with what it reads before its transaction still
    true inside it; the runs of Settlement have stale reads. */
module BookingEvents {
  import opened Prelude
  import opened Balances
  import opened Settlement
  import opened SettlementRuns
  import opened SettlementOutcomes

  function BookedTopic(): string {
    "scheduler.appointment.booked.v1"
  }

  function CancelledTopic(): string {
    "scheduler.appointment.cancelled.v1"
  }

  function CompletedTopic(): string {
    "scheduler.appointment.service-completed.v1"
  }

  /** One appointment: what its events carry, and what the provider answers about the intents of its deposits. */
  datatype Story = Story(booking: AppointmentRef, completion: Completion, answers: map<string, Intent>)
  {
    function Appointment(): int {
      booking.appointment
    }
  }

  /** One delivery of one event, and what its handler finds elsewhere: the intents the provider answers about
      this time, the warranty if vehicle-service answers, the configured fee, the clock. */
  datatype Delivery =
    | Booked(eventId: string)
    | Cancelled(eventId: string, reached: set<string>, now: int)
    | Completed(eventId: string, warranty: Option<bool>, fee: int, now: int)
  {
    function Topic(): string {
      match this
      case Booked(_) => BookedTopic()
      case Cancelled(_, _, _) => CancelledTopic()
      case Completed(_, _, _, _) => CompletedTopic()
    }
  }

  /** How far a cancellation at the provider came; not ok if it gave up. */
  datatype Pass = Pass(db: Db, ok: bool)

  /** p's intent is to be canceled with the bill. */
  predicate Cancels(p: Payment, bill: int) {
    p.billId == bill && p.status == RequiresPayment && p.intent.Some?
  }

  /** Cancels the intent of payment i, if it is to be canceled, and records what the provider says.
      No answer, or one that cannot be recorded, ends the handler. */
  function CancelIntent(db: Db, bill: int, i: int, answers: map<string, Intent>, now: int): Pass {
    if !IsPayment(db, i) || !Cancels(db.payments[i], bill) then Pass(db, true)
    else
      var p := db.payments[i];
      if p.intent.value !in answers then Pass(db, false)
      else
        var r := ApplyTx(db, i, p, answers[p.intent.value], false, now);
        if r.Ok? then Pass(r.value, true) else Pass(db, false)
  }

  function CancelIntents(db: Db, bill: int, n: nat, answers: map<string, Intent>, now: int): Pass {
    if n == 0 then Pass(db, true)
    else
      var before := CancelIntents(db, bill, n - 1, answers, now);
      if before.ok then CancelIntent(before.db, bill, n - 1, answers, now) else before
  }

  /** The appointment's live bill, if it is still OPEN. */
  function DepositBill(db: Db, story: Story): Option<int> {
    var live := LiveBill(db.bills, story.Appointment());
    if live.Some? && 0 <= live.value < |db.bills| && db.bills[live.value].status == Open then live else None
  }

  function AnswersTo(story: Story, reached: set<string>): map<string, Intent> {
    map s | s in story.answers && s in reached :: story.answers[s]
  }

  /** What the cancelled handler does before its transaction. */
  function BeforeCancel(db: Db, story: Story, answers: map<string, Intent>, now: int): Pass {
    var bill := DepositBill(db, story);
    if bill.Some? then CancelIntents(db, bill.value, |db.payments|, answers, now) else Pass(db, true)
  }

  /** The handler's transaction, if it comes to it; None if the handler throws and will be retried. */
  function Transacted(db: Db, story: Story, d: Delivery): Option<Db> {
    var live := LiveBill(db.bills, story.Appointment());
    var known := KnownRef(db.refs, story.Appointment());
    match d
    case Booked(eventId) => Some(BookedTx(db, BookedTopic(), eventId, story.booking, known))
    case Cancelled(eventId, reached, now) =>
      var before := BeforeCancel(db, story, AnswersTo(story, reached), now);
      if !before.ok then None
      else
        var r := CancelledTx(before.db, CancelledTopic(), eventId, story.booking, known, live);
        if r.Ok? then Some(r.value) else None
    case Completed(eventId, warranty, fee, now) =>
      if warranty.None? then None
      else
        var r := CompletedTx(db, CompletedTopic(), eventId, story.completion, warranty.value, fee, known, live, now);
        if r.Ok? then Some(r.value) else None
  }

  /** A handler that throws leaves what it recorded of the provider's answers, and its event unprocessed. */
  function Deliver(db: Db, story: Story, d: Delivery): Db {
    var done := Transacted(db, story, d);
    if done.Some? then done.value
    else if d.Cancelled? then BeforeCancel(db, story, AnswersTo(story, d.reached), d.now).db
    else db
  }

  function DeliverAll(db: Db, story: Story, ds: seq<Delivery>): Db {
    if ds == [] then db else Deliver(DeliverAll(db, story, ds[..|ds| - 1]), story, ds[|ds| - 1])
  }

  /** Some delivery was handled to its end. */
  predicate HeardAny(db: Db, story: Story, ds: seq<Delivery>) {
    ds != []
    && var init := ds[..|ds| - 1];
       HeardAny(db, story, init) || Transacted(DeliverAll(db, story, init), story, ds[|ds| - 1]).Some?
  }

  /** The first delivery that was handled to its end and ends the appointment. */
  function FirstEnd(db: Db, story: Story, ds: seq<Delivery>): Option<Delivery> {
    if ds == [] then None
    else
      var init, last := ds[..|ds| - 1], ds[|ds| - 1];
      var before := FirstEnd(db, story, init);
      if before.Some? then before
      else if !last.Booked? && Transacted(DeliverAll(db, story, init), story, last).Some? then Some(last)
      else None
  }

  function EndStatus(first: Option<Delivery>): RefStatus {
    if first.None? then RefBooked else if first.value.Cancelled? then RefCancelled else RefCompleted
  }

  // --- The premises --------------------------------------------------------------

  /** Every event describes the same booking; the completion's lines add up to the booked estimate. */
  predicate Tells(story: Story) {
    var b, c := story.booking, story.completion;
    && b.status == RefBooked
    && c.appointment == b.appointment && c.customer == b.customer && c.vehicle == b.vehicle
    && c.dealership == b.dealership && b.estimate == Money(EstimateOf(c.services), c.currency)
  }

  predicate OneKindOfEnd(ds: seq<Delivery>) {
    (forall i :: 0 <= i < |ds| ==> !ds[i].Cancelled?) || (forall i :: 0 <= i < |ds| ==> !ds[i].Completed?)
  }

  /** Nothing of these deliveries was processed yet; at most a deposit copied the booking. */
  ghost predicate NotHeardOf(db: Db, story: Story, ds: seq<Delivery>) {
    && Tells(story)
    && (story.Appointment() in db.refs ==> db.refs[story.Appointment()] == story.booking)
    && (forall i :: 0 <= i < |ds| ==> (ds[i].Topic(), ds[i].eventId) !in db.processed)
    && OneKindOfEnd(ds)
  }

  ghost predicate Unheard(db: Db, story: Story, ds: seq<Delivery>) {
    Good(db) && NotHeardOf(db, story, ds)
  }

  // --- What a cancellation makes of a payment ------------------------------------------

  /** The row that recording answer a makes of p. */
  function Fate(p: Payment, a: Intent, now: int): Payment {
    var q := Moved(p, a, now);
    if q == p then p else q.(version := p.version + 1)
  }

  /** All but when the money came. */
  function Timeless(p: Payment): Payment {
    p.(succeededAt := None)
  }

  /** An answer that could not be recorded on this bill. */
  predicate Foreign(a: Intent, p: Payment, currency: string) {
    a.status == IntentSucceeded && p.amount.currency != currency
  }

  lemma FateIgnoresTheClock(p: Payment, a: Intent, now: int, later: int)
    requires p.status == RequiresPayment
    ensures Timeless(Fate(p, a, now)) == Timeless(Fate(p, a, later))
    ensures var q := Fate(p, a, now); SameMoney(p, q) && q.kind == p.kind && q.intent == p.intent
    ensures Fate(p, a, now).status == Succeeded <==> a.status == IntentSucceeded
  {
  }

  /** A payment that met its fate is not moved again. */
  lemma FateIsFinal(p: Payment, q: Payment, a: Intent, now: int, later: int)
    requires p.status == RequiresPayment && Timeless(q) == Timeless(Fate(p, a, now)) && q.status == RequiresPayment
    ensures Moved(q, a, later) == q && a.status != IntentSucceeded
  {
  }

  lemma CancelIntentIs(db: Db, bill: int, i: int, answers: map<string, Intent>, now: int)
    requires Good(db) && IsPayment(db, i) && Cancels(db.payments[i], bill) && db.payments[i].intent.value in answers
    requires db.bills[bill].status == Open
    ensures var p := db.payments[i]; var a := answers[p.intent.value];
      var pass := CancelIntent(db, bill, i, answers, now);
      && (pass.ok <==> !Foreign(a, p, db.bills[bill].currency))
      && Good(pass.db)
      && (if pass.ok then OnlyRow(db, pass.db, i, Fate(p, a, now)) else pass.db == db)
  {
    var p := db.payments[i];
    var a := answers[p.intent.value];
    var r := ApplyTx(db, i, p, a, false, now);
    OwnIntent(db, i);
    CancelIntentUnfolds(db, bill, i, answers, now);
    TargetIsMoved(db, i, a, now);
    ObservationFailsIff(db, i, p, a, false, now);
    hide Good, ApplyTx, Moved, IntentOfAnother, Target, CancelIntent, Fate, OnlyRow, WritesOnly;
    if r.Ok? {
      ApplyShape(db, i, p, a, false, now);
      ApplyKeepsBooks(db, i, p, a, false, now);
      ApplyKeepsGood(db, i, p, a, false, now);
      OpenBillsStay(db, r.value, i);
      AppliedIsFate(db, r.value, i, a, now);
    }
  }

  lemma CancelIntentUnfolds(db: Db, bill: int, i: int, answers: map<string, Intent>, now: int)
    requires IsPayment(db, i) && Cancels(db.payments[i], bill) && db.payments[i].intent.value in answers
    ensures var r := ApplyTx(db, i, db.payments[i], answers[db.payments[i].intent.value], false, now);
      CancelIntent(db, bill, i, answers, now) == if r.Ok? then Pass(r.value, true) else Pass(db, false)
  {
    hide ApplyTx;
  }

  lemma AppliedIsFate(db: Db, db': Db, i: int, a: Intent, now: int)
    requires IsPayment(db, i) && IsBill(db, db.payments[i].billId) && WritesOnly(db, db', i)
    requires db'.bills == db.bills && db'.refs == db.refs && db'.processed == db.processed
    requires var p := db.payments[i]; var next := Moved(p, a, now);
      next.version == p.version && db'.payments[i] == if next == p then next else next.(version := next.version + 1)
    ensures OnlyRow(db, db', i, Fate(db.payments[i], a, now))
  {
    hide Moved;
  }

  lemma OwnIntent(db: Db, i: int)
    requires Good(db) && IsPayment(db, i)
    ensures db.payments[i].id == i && IsBill(db, db.payments[i].billId)
    ensures db.payments[i].intent.Some? ==> !IntentOfAnother(db, i, db.payments[i].intent)
  {
  }

  lemma TargetIsMoved(db: Db, i: int, a: Intent, now: int)
    requires IsPayment(db, i) && db.payments[i].status == RequiresPayment && db.payments[i].intent.Some?
    ensures var p := db.payments[i]; var next := Target(db, i, p, a, now);
      && next == Moved(p, a, now) && next.intent == p.intent && next.version == p.version
      && next.amount == p.amount && (next.status == Succeeded <==> a.status == IntentSucceeded)
  {
  }

  /** Only payment i changed, into q. */
  ghost predicate OnlyRow(db: Db, db': Db, i: int, q: Payment)
    requires IsPayment(db, i)
  {
    && db'.bills == db.bills && db'.refs == db.refs && db'.processed == db.processed && db'.refunds == db.refunds
    && db'.payments == db.payments[i := q]
  }

  lemma OpenBillsStay(db: Db, db': Db, i: int)
    requires IsPayment(db, i) && IsBill(db, db.payments[i].billId) && WritesOnly(db, db', i)
    requires db.bills[db.payments[i].billId].status == Open
    ensures db'.bills == db.bills
  {
    var b := db.payments[i].billId;
    assert db.bills[b].(status := Open) == db.bills[b];
  }

  lemma ApplyKeepsBooks(db: Db, p: int, found: Payment, intent: Intent, notify: bool, now: int)
    requires ApplyTx(db, p, found, intent, notify, now).Ok?
    ensures var db' := ApplyTx(db, p, found, intent, notify, now).value;
      db'.refs == db.refs && db'.processed == db.processed
  {
    hide BalanceAt, IntentOfAnother, Moved;
  }

  lemma CancelIntentMovesOne(db: Db, bill: int, i: int, answers: map<string, Intent>, now: int)
    requires IsPayment(db, i) && db.payments[i].id == i
    ensures var db' := CancelIntent(db, bill, i, answers, now).db;
      |db'.payments| == |db.payments| && db'.payments == db.payments[i := db'.payments[i]] && db'.payments[i].id == i
  {
    if CancelIntent(db, bill, i, answers, now).db != db {
      ApplyShape(db, i, db.payments[i], answers[db.payments[i].intent.value], false, now);
    }
  }

  // --- Half a cancellation, and another ---------------------------------------------------

  /** p is still what it was, or met its fate. */
  ghost predicate RowUnderway(p0: Payment, p: Payment, bill: int, answers: map<string, Intent>) {
    p == p0 || RowMet(p0, p, bill, answers)
  }

  ghost predicate RowMet(p0: Payment, p: Payment, bill: int, answers: map<string, Intent>) {
    && Cancels(p0, bill) && p0.intent.value in answers
    && Timeless(p) == Timeless(Fate(p0, answers[p0.intent.value], 0))
  }

  /** p met its fate if it was to be canceled, and is what it was otherwise. */
  ghost predicate RowDone(p0: Payment, p: Payment, bill: Bill, answers: map<string, Intent>) {
    if Cancels(p0, bill.id)
    then RowMet(p0, p, bill.id, answers) && !Foreign(answers[p0.intent.value], p0, bill.currency)
    else p == p0
  }

  /** Since db0 some of the bill's open intents were canceled, and their answers recorded. */
  ghost predicate Underway(db0: Db, db: Db, bill: int, story: Story) {
    && Good(db) && db.bills == db0.bills && db.refunds == db0.refunds && |db.payments| == |db0.payments|
    && IsBill(db, bill) && db.bills[bill].status == Open
    && forall i :: 0 <= i < |db0.payments| ==> RowUnderway(db0.payments[i], db.payments[i], bill, story.answers)
  }

  /** What this pass is given to answer with is part of what the provider says. */
  predicate SomeAnswers(answers: map<string, Intent>, story: Story) {
    forall s :: s in answers ==> s in story.answers && answers[s] == story.answers[s]
  }

  ghost predicate FirstDone(db0: Db, pass: Pass, bill: int, n: nat, story: Story)
    requires |pass.db.payments| == |db0.payments| && IsBill(db0, bill)
  {
    pass.ok ==> forall i :: 0 <= i < n && i < |db0.payments| ==>
      RowDone(db0.payments[i], pass.db.payments[i], db0.bills[bill], story.answers)
  }

  /** However far the passes before came, this one takes the rest with it, as far as it comes. */
  lemma {:induction false} PassGoesOn(db0: Db, db: Db, bill: int, n: nat, answers: map<string, Intent>, now: int,
                                      story: Story)
    requires Underway(db0, db, bill, story) && SomeAnswers(answers, story) && n <= |db.payments|
    ensures var pass := CancelIntents(db, bill, n, answers, now);
      && Underway(db0, pass.db, bill, story) && FirstDone(db0, pass, bill, n, story)
      && pass.db.refs == db.refs && pass.db.processed == db.processed
      && forall i :: n <= i < |db.payments| ==> pass.db.payments[i] == db.payments[i]
  {
    hide Good, RowUnderway, CancelIntent, RowDone;
    if n > 0 {
      PassGoesOn(db0, db, bill, n - 1, answers, now, story);
      var before := CancelIntents(db, bill, n - 1, answers, now);
      if before.ok {
        OneGoesOn(db0, before.db, bill, n - 1, answers, now, story);
      }
    }
  }

  lemma OneGoesOn(db0: Db, db: Db, bill: int, i: nat, answers: map<string, Intent>, now: int, story: Story)
    requires Underway(db0, db, bill, story) && SomeAnswers(answers, story) && i < |db.payments|
    ensures var pass := CancelIntent(db, bill, i, answers, now);
      && Underway(db0, pass.db, bill, story)
      && (pass.ok ==> RowDone(db0.payments[i], pass.db.payments[i], db0.bills[bill], story.answers))
      && (forall j :: 0 <= j < |db.payments| && j != i ==> pass.db.payments[j] == db.payments[j])
      && pass.db.refs == db.refs && pass.db.processed == db.processed
  {
    var p0, p := db0.payments[i], db.payments[i];
    var pass := CancelIntent(db, bill, i, answers, now);
    UnderwayMeans(db0, db, bill, i, story);
    hide Good, CancelIntent, Fate, RowDone, RowMet, RowUnderway, Underway;
    if Cancels(p, bill) && p.intent.value in answers {
      CancelIntentIs(db, bill, i, answers, now);
      RowGoesOn(p0, p, db.bills[bill], story.answers, now);
      if pass.ok {
        StillUnderway(db0, db, pass.db, bill, i, story);
      }
    } else {
      NothingToCancel(db, bill, i, answers, now);
      if !Cancels(p, bill) {
        RowRestsGood(db, p0, i, bill, story.answers);
      }
    }
  }

  lemma UnderwayMeans(db0: Db, db: Db, bill: int, i: nat, story: Story)
    requires Underway(db0, db, bill, story) && i < |db.payments|
    ensures Good(db) && IsBill(db, bill) && db.bills == db0.bills
    ensures db.bills[bill].status == Open && db.bills[bill].id == bill
    ensures |db.payments| == |db0.payments| && RowUnderway(db0.payments[i], db.payments[i], bill, story.answers)
  {
    hide RowUnderway;
  }

  lemma StillUnderway(db0: Db, db: Db, next: Db, bill: int, i: nat, story: Story)
    requires Underway(db0, db, bill, story) && i < |db.payments| && Good(next)
    requires |next.payments| == |db.payments| && next.payments == db.payments[i := next.payments[i]]
    requires next.bills == db.bills && next.refunds == db.refunds
    requires RowUnderway(db0.payments[i], next.payments[i], bill, story.answers)
    ensures Underway(db0, next, bill, story)
  {
    hide Good, RowUnderway;
  }

  lemma NothingToCancel(db: Db, bill: int, i: nat, answers: map<string, Intent>, now: int)
    requires IsPayment(db, i) && (!Cancels(db.payments[i], bill) || db.payments[i].intent.value !in answers)
    ensures CancelIntent(db, bill, i, answers, now) == Pass(db, !Cancels(db.payments[i], bill))
  {
  }

  lemma RowRestsGood(db: Db, p0: Payment, i: int, bill: int, answers: map<string, Intent>)
    requires Good(db) && IsPayment(db, i) && IsBill(db, bill) && db.bills[bill].id == bill
    requires RowUnderway(p0, db.payments[i], bill, answers) && !Cancels(db.payments[i], bill)
    ensures RowDone(p0, db.payments[i], db.bills[bill], answers)
  {
    RowRests(db, p0, i, db.bills[bill], answers);
    hide Good;
  }

  /** One more answer about a row underway. */
  lemma RowGoesOn(p0: Payment, p: Payment, bill: Bill, answers: map<string, Intent>, now: int)
    requires RowUnderway(p0, p, bill.id, answers) && Cancels(p, bill.id) && p.intent.value in answers
    ensures var q := Fate(p, answers[p.intent.value], now);
      && RowUnderway(p0, q, bill.id, answers)
      && (!Foreign(answers[p.intent.value], p, bill.currency) ==> RowDone(p0, q, bill, answers))
  {
    var a := answers[p.intent.value];
    FateIgnoresTheClock(p, a, now, 0);
    if p != p0 {
      FateIgnoresTheClock(p0, answers[p0.intent.value], 0, 0);
      FateIsFinal(p0, p, a, 0, now);
    }
  }

  /** A row that has nothing to be canceled any more. */
  lemma RowRests(db: Db, p0: Payment, i: int, bill: Bill, answers: map<string, Intent>)
    requires RowsFit(db) && CurrenciesFit(db) && IsPayment(db, i) && IsBill(db, bill.id) && db.bills[bill.id] == bill
    requires RowUnderway(p0, db.payments[i], bill.id, answers) && !Cancels(db.payments[i], bill.id)
    ensures RowDone(p0, db.payments[i], bill, answers)
  {
    var p := db.payments[i];
    if Cancels(p0, bill.id) {
      var a := answers[p0.intent.value];
      FateIgnoresTheClock(p0, a, 0, 0);
      assert CapturedIn(p, db.bills[p.billId]);
    }
  }

  /** A pass comes through exactly if the provider answers about every intent that is still to be canceled,
      and none of those succeeded in another currency than the bill's. */
  lemma {:induction false} PassComesThroughIff(db: Db, bill: int, n: nat, answers: map<string, Intent>, now: int)
    requires Good(db) && IsBill(db, bill) && db.bills[bill].status == Open && n <= |db.payments|
    ensures var pass := CancelIntents(db, bill, n, answers, now);
      && (pass.ok <==> forall i :: 0 <= i < n ==> CanCancel(db.payments[i], db.bills[bill], answers))
      && Good(pass.db) && pass.db.bills == db.bills && |pass.db.payments| == |db.payments|
      && forall i :: n <= i < |db.payments| ==> pass.db.payments[i] == db.payments[i]
  {
    hide Good, CancelIntent, CanCancel;
    if n > 0 {
      PassComesThroughIff(db, bill, n - 1, answers, now);
      var before := CancelIntents(db, bill, n - 1, answers, now);
      if before.ok {
        OneComesThroughIff(before.db, bill, n - 1, answers, now);
      }
    }
  }

  predicate CanCancel(p: Payment, bill: Bill, answers: map<string, Intent>) {
    Cancels(p, bill.id) ==>
      p.intent.value in answers && !Foreign(answers[p.intent.value], p, bill.currency)
  }

  lemma OneComesThroughIff(db: Db, bill: int, i: nat, answers: map<string, Intent>, now: int)
    requires Good(db) && IsBill(db, bill) && db.bills[bill].status == Open && i < |db.payments|
    ensures var pass := CancelIntent(db, bill, i, answers, now);
      && (pass.ok <==> CanCancel(db.payments[i], db.bills[bill], answers))
      && Good(pass.db) && pass.db.bills == db.bills && |pass.db.payments| == |db.payments|
      && forall j :: 0 <= j < |db.payments| && j != i ==> pass.db.payments[j] == db.payments[j]
  {
    assert db.bills[bill].id == bill;
    if Cancels(db.payments[i], bill) && db.payments[i].intent.value in answers {
      CancelIntentIs(db, bill, i, answers, now);
    }
  }

  // --- The cancellation --------------------------------------------------------------------

  predicate SameTables(db: Db, db': Db) {
    db'.bills == db.bills && db'.payments == db.payments && db'.refunds == db.refunds
  }

  /** The same bills, payments and refunds, but for when the money came. */
  predicate SameUpToWhen(db: Db, db': Db) {
    && db'.bills == db.bills && db'.refunds == db.refunds && |db'.payments| == |db.payments|
    && forall i :: 0 <= i < |db.payments| ==> Timeless(db'.payments[i]) == Timeless(db.payments[i])
  }

  predicate HasMoney(p: Payment) {
    p.status.Captured() || p.status == Processing
  }

  predicate MoneyMoves(payments: seq<Payment>) {
    exists i :: 0 <= i < |payments| && HasMoney(payments[i])
  }

  lemma {:induction false} MoneyMovesIff(payments: seq<Payment>, bill: int)
    ensures MoneyMoves(PaymentsOf(payments, bill))
      <==> exists i :: 0 <= i < |payments| && payments[i].billId == bill && HasMoney(payments[i])
  {
    if payments != [] {
      var n := |payments| - 1;
      MoneyMovesIff(payments[..n], bill);
      var before, all := PaymentsOf(payments[..n], bill), PaymentsOf(payments, bill);
      assert forall i :: 0 <= i < n ==> payments[..n][i] == payments[i];
      assert forall i :: 0 <= i < |before| ==> all[i] == before[i];
      assert payments[n].billId == bill ==> all[|before|] == payments[n];
    }
  }

  lemma SameMoneyMoves(payments: seq<Payment>, payments': seq<Payment>, bill: int)
    requires |payments'| == |payments|
    requires forall i :: 0 <= i < |payments| ==> Timeless(payments'[i]) == Timeless(payments[i])
    ensures MoneyMoves(PaymentsOf(payments', bill)) <==> MoneyMoves(PaymentsOf(payments, bill))
  {
    MoneyMovesIff(payments, bill);
    MoneyMovesIff(payments', bill);
    forall i | 0 <= i < |payments|
      ensures payments'[i].billId == payments[i].billId && HasMoney(payments'[i]) == HasMoney(payments[i])
    {
      assert Timeless(payments'[i]).status == Timeless(payments[i]).status;
      assert Timeless(payments'[i]).billId == Timeless(payments[i]).billId;
    }
  }

  /** Before any end: the deposits' bill is as it was, and its intents are on the way. */
  ghost predicate Progress(db0: Db, db: Db, story: Story) {
    var bill := DepositBill(db0, story);
    if bill.None? then Good(db) && SameTables(db0, db) else Underway(db0, db, bill.value, story)
  }

  /** A cancellation came through: every open intent met its fate, and the bill is VOID unless it has money. */
  ghost predicate CancelledFrom(db0: Db, db: Db, story: Story) {
    var bill := DepositBill(db0, story);
    && db.refunds == db0.refunds && |db.payments| == |db0.payments|
    && (if bill.None? then SameTables(db0, db)
        else VoidedUnlessPaid(db0, db, bill.value)
             && forall i :: 0 <= i < |db0.payments| ==>
                  RowDone(db0.payments[i], db.payments[i], db0.bills[bill.value], story.answers))
  }

  predicate VoidedUnlessPaid(db0: Db, db: Db, bill: int)
    requires IsBill(db0, bill)
  {
    db.bills == if MoneyMoves(PaymentsOf(db.payments, bill)) then db0.bills
                else db0.bills[bill := db0.bills[bill].(status := Void)]
  }

  /** That leaves nothing open but when the money came. */
  lemma CancelledFromIsUnique(db0: Db, one: Db, other: Db, story: Story)
    requires CancelledFrom(db0, one, story) && CancelledFrom(db0, other, story)
    ensures SameUpToWhen(one, other)
  {
    var bill := DepositBill(db0, story);
    if bill.Some? {
      forall i | 0 <= i < |db0.payments| ensures Timeless(one.payments[i]) == Timeless(other.payments[i]) {
        assert RowDone(db0.payments[i], one.payments[i], db0.bills[bill.value], story.answers);
        assert RowDone(db0.payments[i], other.payments[i], db0.bills[bill.value], story.answers);
      }
      SameMoneyMoves(one.payments, other.payments, bill.value);
    }
  }

  /** Another cancellation would change neither bills nor payments. */
  ghost predicate RestsCancelled(db: Db, story: Story) {
    var bill := DepositBill(db, story);
    bill.Some? ==>
      && MoneyMoves(PaymentsOf(db.payments, bill.value))
      && forall i :: 0 <= i < |db.payments| ==>
           db.payments[i].id == i && Quiet(db.payments[i], bill.value, story.answers)
  }

  /** The provider has nothing new to say about p. */
  predicate Quiet(p: Payment, bill: int, answers: map<string, Intent>) {
    Cancels(p, bill) ==> p.intent.value in answers && Moved(p, answers[p.intent.value], 0) == p
  }

  lemma DoneIsQuiet(p0: Payment, p: Payment, bill: Bill, answers: map<string, Intent>)
    requires RowDone(p0, p, bill, answers)
    ensures Quiet(p, bill.id, answers)
  {
    if Cancels(p, bill.id) {
      var a := answers[p0.intent.value];
      FateIgnoresTheClock(p0, a, 0, 0);
      FateIsFinal(p0, p, a, 0, 0);
    }
  }

  lemma QuietChangesNothing(db: Db, bill: int, i: int, answers: map<string, Intent>, now: int, story: Story)
    requires IsPayment(db, i) ==> db.payments[i].id == i && Quiet(db.payments[i], bill, story.answers)
    requires SomeAnswers(answers, story)
    ensures CancelIntent(db, bill, i, answers, now).db == db
  {
  }

  lemma {:induction false} AllQuietChangesNothing(db: Db, bill: int, n: nat, answers: map<string, Intent>, now: int,
                                                  story: Story)
    requires forall i :: 0 <= i < |db.payments| ==> db.payments[i].id == i && Quiet(db.payments[i], bill, story.answers)
    requires SomeAnswers(answers, story)
    ensures CancelIntents(db, bill, n, answers, now).db == db
  {
    if n > 0 {
      AllQuietChangesNothing(db, bill, n - 1, answers, now, story);
      QuietChangesNothing(db, bill, n - 1, answers, now, story);
    }
  }

  function RefsCancelled(db: Db, story: Story): map<int, AppointmentRef> {
    var id := story.Appointment();
    db.refs[id := (if id in db.refs then db.refs[id] else story.booking).(status := RefCancelled)]
  }

  lemma VoidingShape(before: Db, eventId: string, story: Story, live: Option<int>)
    requires (CancelledTopic(), eventId) !in before.processed && (live.Some? ==> IsBill(before, live.value))
    ensures var known := KnownRef(before.refs, story.Appointment());
      var r := CancelledTx(before, CancelledTopic(), eventId, story.booking, known, live);
      && r.Ok? && r.value.payments == before.payments && r.value.refunds == before.refunds
      && r.value.outbox == before.outbox && r.value.refs == RefsCancelled(before, story)
      && r.value.processed == before.processed + {(CancelledTopic(), eventId)}
      && (if live.Some? && before.bills[live.value].status == Open then VoidedUnlessPaid(before, r.value, live.value)
          else r.value.bills == before.bills)
  {
    if live.Some? {
      var all := PaymentsOf(before.payments, live.value);
      assert MoneyMoves(all) <==>
        exists i :: 0 <= i < |all| && (all[i].status.Captured() || all[i].status == Processing);
    }
  }

  /** After an end, a cancellation changes at most the list of processed events. */
  lemma CancelAgain(db: Db, story: Story, d: Delivery)
    requires d.Cancelled? && RestsCancelled(db, story)
    ensures var end := Deliver(db, story, d);
      && SameTables(db, end) && end.outbox == db.outbox
      && (end.processed == db.processed || end.processed == db.processed + {(CancelledTopic(), d.eventId)})
      && (end.refs == db.refs || end.refs == RefsCancelled(db, story))
  {
    var live := LiveBill(db.bills, story.Appointment());
    var answers := AnswersTo(story, d.reached);
    LiveBillFinds(db.bills, story.Appointment());
    var bill := DepositBill(db, story);
    if bill.Some? {
      AllQuietChangesNothing(db, bill.value, |db.payments|, answers, d.now, story);
    }
    assert BeforeCancel(db, story, answers, d.now).db == db;
    if (CancelledTopic(), d.eventId) !in db.processed {
      VoidingShape(db, d.eventId, story, live);
    }
  }

  lemma PassMakesProgress(db0: Db, db: Db, story: Story, answers: map<string, Intent>, now: int)
    requires Progress(db0, db, story) && SomeAnswers(answers, story)
    ensures var pass := BeforeCancel(db, story, answers, now); var bill := DepositBill(db0, story);
      && DepositBill(db, story) == bill
      && Progress(db0, pass.db, story) && pass.db.refs == db.refs && pass.db.processed == db.processed
      && (bill.Some? ==> |pass.db.payments| == |db0.payments| && IsBill(db0, bill.value)
                         && FirstDone(db0, pass, bill.value, |db0.payments|, story))
      && (bill.None? ==> pass == Pass(db, true))
  {
    var bill := DepositBill(db0, story);
    if bill.Some? {
      assert db.bills == db0.bills;
      PassGoesOn(db0, db, bill.value, |db.payments|, answers, now, story);
    }
  }

  /** What the handler's transaction is, once every intent was answered. */
  function Voiding(db: Db, before: Db, story: Story, eventId: string): Result<Db, Error> {
    CancelledTx(before, CancelledTopic(), eventId, story.booking, KnownRef(db.refs, story.Appointment()),
                LiveBill(db.bills, story.Appointment()))
  }

  lemma CancelUnfolds(db: Db, story: Story, d: Delivery)
    requires d.Cancelled?
    ensures var pass := BeforeCancel(db, story, AnswersTo(story, d.reached), d.now);
      var r := Voiding(db, pass.db, story, d.eventId);
      && Transacted(db, story, d) == (if pass.ok && r.Ok? then Some(r.value) else None)
      && Deliver(db, story, d) == (if pass.ok && r.Ok? then r.value else pass.db)
  {
    hide BeforeCancel, CancelledTx, LiveBill, CancelledTopic;
  }

  /** Canceling intents touches no booking. */
  lemma RefsBeforeCancel(db: Db, story: Story, answers: map<string, Intent>, now: int)
    ensures BeforeCancel(db, story, answers, now).db.refs == db.refs
  {
    var bill := DepositBill(db, story);
    if bill.Some? {
      RefsKeptByPass(db, bill.value, |db.payments|, answers, now);
    }
  }

  lemma {:induction false} RefsKeptByPass(db: Db, bill: int, n: nat, answers: map<string, Intent>, now: int)
    ensures CancelIntents(db, bill, n, answers, now).db.refs == db.refs
  {
    if n > 0 {
      RefsKeptByPass(db, bill, n - 1, answers, now);
      var before := CancelIntents(db, bill, n - 1, answers, now).db;
      if CancelIntent(before, bill, n - 1, answers, now).db != before {
        var p := before.payments[n - 1];
        ApplyKeepsBooks(before, n - 1, p, answers[p.intent.value], false, now);
      }
    }
  }

  /** A cancellation before any end comes through, or leaves a little more done. */
  lemma CancelFirst(db0: Db, db: Db, story: Story, d: Delivery)
    requires Good(db0) && Progress(db0, db, story)
    requires d.Cancelled? && (CancelledTopic(), d.eventId) !in db.processed
    ensures var end := Deliver(db, story, d);
      if Transacted(db, story, d).Some?
      then CancelledFrom(db0, end, story) && Good(end) && RestsCancelled(end, story)
           && end.refs == RefsCancelled(db, story) && end.processed == db.processed + {(CancelledTopic(), d.eventId)}
      else Progress(db0, end, story) && end.refs == db.refs && end.processed == db.processed
  {
    hide *;
    var answers := AnswersTo(story, d.reached);
    CancelUnfolds(db, story, d);
    AnswersToAreAnswers(story, d.reached);
    PassMakesProgress(db0, db, story, answers, d.now);
    var pass := BeforeCancel(db, story, answers, d.now);
    PassKeepsGood(db0, db, story);
    PassKeepsGood(db0, pass.db, story);
    if pass.ok {
      VoidingComesThrough(db0, db, pass, story, d.eventId);
    }
  }

  lemma AnswersToAreAnswers(story: Story, reached: set<string>)
    ensures SomeAnswers(AnswersTo(story, reached), story)
  {
  }

  lemma VoidingComesThrough(db0: Db, db: Db, pass: Pass, story: Story, eventId: string)
    requires Good(db0) && Progress(db0, pass.db, story) && pass.ok && db.bills == db0.bills
    requires pass.db.refs == db.refs && pass.db.processed == db.processed
    requires (CancelledTopic(), eventId) !in db.processed
    requires var bill := DepositBill(db0, story);
      bill.Some? ==> |pass.db.payments| == |db0.payments| && IsBill(db0, bill.value)
                     && FirstDone(db0, pass, bill.value, |db0.payments|, story)
    ensures var r := Voiding(db, pass.db, story, eventId);
      && r.Ok? && CancelledFrom(db0, r.value, story) && Good(r.value) && RestsCancelled(r.value, story)
      && r.value.refs == RefsCancelled(db, story) && r.value.processed == db.processed + {(CancelledTopic(), eventId)}
  {
    var live := LiveBill(db0.bills, story.Appointment());
    LiveBillFinds(db0.bills, story.Appointment());
    PassKeepsGood(db0, pass.db, story);
    hide Good, Progress, CancelledFrom, RestsCancelled, LiveBill, CancelledTx, FirstDone, VoidedUnlessPaid,
         CancelledTopic;
    VoidingShape(pass.db, eventId, story, live);
    var end := Voiding(db, pass.db, story, eventId).value;
    CancelledKeepsGood(pass.db, CancelledTopic(), eventId, story.booking, KnownRef(db.refs, story.Appointment()), live);
    CancelledIsFrom(db0, pass, end, story, live);
    GoodIsUnique(db0);
    GoodIsUnique(end);
    CancelledRests(db0, end, story);
  }

  lemma PassKeepsGood(db0: Db, db: Db, story: Story)
    requires Progress(db0, db, story)
    ensures Good(db) && db.bills == db0.bills && db.refunds == db0.refunds
  {
  }

  lemma GoodIsUnique(db: Db)
    requires Good(db)
    ensures RowsFit(db) && Unique(db)
  {
  }

  lemma CancelledIsFrom(db0: Db, pass: Pass, end: Db, story: Story, live: Option<int>)
    requires Progress(db0, pass.db, story) && pass.ok && live == LiveBill(db0.bills, story.Appointment())
    requires live.Some? ==> IsBill(db0, live.value)
    requires var bill := DepositBill(db0, story);
      bill.Some? ==> |pass.db.payments| == |db0.payments| && IsBill(db0, bill.value)
                     && FirstDone(db0, pass, bill.value, |db0.payments|, story)
    requires end.payments == pass.db.payments && end.refunds == pass.db.refunds && pass.db.bills == db0.bills
    requires if live.Some? && db0.bills[live.value].status == Open then VoidedUnlessPaid(pass.db, end, live.value)
             else end.bills == db0.bills
    ensures CancelledFrom(db0, end, story)
  {
    hide Good, RowDone, RowUnderway;
  }

  lemma CancelledRests(db0: Db, end: Db, story: Story)
    requires CancelledFrom(db0, end, story) && RowsFit(end) && Unique(end) && RowsFit(db0) && Unique(db0)
    ensures RestsCancelled(end, story)
  {
    var bill := DepositBill(db0, story);
    LiveBillFinds(db0.bills, story.Appointment());
    LiveBillFinds(end.bills, story.Appointment());
    if bill.Some? {
      forall i | 0 <= i < |end.payments| ensures Quiet(end.payments[i], bill.value, story.answers) {
        DoneIsQuiet(db0.payments[i], end.payments[i], db0.bills[bill.value], story.answers);
      }
      OneLiveBill(db0, end, story, bill.value);
    }
  }

  /** If the bill was voided, the appointment has no live bill any more. */
  lemma OneLiveBill(db0: Db, end: Db, story: Story, b: int)
    requires Unique(db0) && Unique(end) && IsBill(db0, b)
    requires DepositBill(db0, story) == Some(b) && VoidedUnlessPaid(db0, end, b)
    ensures DepositBill(end, story).Some? ==>
      DepositBill(end, story) == Some(b) && MoneyMoves(PaymentsOf(end.payments, b))
  {
    LiveBillFinds(db0.bills, story.Appointment());
    LiveBillFinds(end.bills, story.Appointment());
    assert forall x :: 0 <= x < |db0.bills| && x != b && db0.bills[x].appointment == story.Appointment() ==>
      db0.bills[x].status == Void;
  }

  // --- The completion ------------------------------------------------------------------------

  /** Another completion would change neither bills nor payments. */
  ghost predicate RestsCompleted(db: Db, story: Story) {
    var live := LiveBill(db.bills, story.Appointment());
    && live.Some? && IsBill(db, live.value) && db.bills[live.value].status != Open
    && EstimateOf(story.completion.services) >= 0
  }

  function RefsCompleted(db: Db, story: Story): map<int, AppointmentRef> {
    NoteCompleted(db, "", "", story.completion, KnownRef(db.refs, story.completion.appointment)).refs
  }

  /** After an end, a completion changes at most the list of processed events. */
  lemma CompleteAgain(db: Db, story: Story, d: Delivery)
    requires d.Completed? && RestsCompleted(db, story) && story.completion.appointment == story.Appointment()
    ensures var end := Deliver(db, story, d);
      && SameTables(db, end) && end.outbox == db.outbox
      && (end.processed == db.processed || end.processed == db.processed + {(CompletedTopic(), d.eventId)})
      && (end.refs == db.refs || end.refs == RefsCompleted(db, story))
  {
  }

  lemma PriceShape(db: Db, b: int, lines: seq<BillLine>, now: int)
    requires IsBill(db, b) && db.bills[b].status == Open && PriceTx(db, b, lines, now).Ok?
    ensures PricedInto(db, PriceTx(db, b, lines, now).value, b)
  {
    hide BalanceAt, LinesSum;
  }

  /** Only bill b changed: if it was OPEN, it is priced now. */
  ghost predicate PricedInto(db: Db, db': Db, b: int)
    requires IsBill(db, b)
  {
    && db'.payments == db.payments && db'.refunds == db.refunds && db'.refs == db.refs && db'.processed == db.processed
    && |db'.bills| == |db.bills| && db'.bills == db.bills[b := db'.bills[b]]
    && db'.bills[b].appointment == db.bills[b].appointment
    && db'.bills[b].status != Open && (db'.bills[b].status == Void <==> db.bills[b].status == Void)
  }

  lemma PricingShape(db: Db, b: int, c: Completion, inWarranty: bool, fee: int, now: int)
    requires PriceCompleted(db, b, c, inWarranty, fee, now).Ok?
    ensures IsBill(db, b) && PricedInto(db, PriceCompleted(db, b, c, inWarranty, fee, now).value, b)
  {
    if db.bills[b].status == Open {
      PriceShape(db, b, PricedLines(c.services, inWarranty, fee), now);
      hide PriceTx, PricedLines;
    }
  }

  lemma BalanceReadsTables(db: Db, db': Db, bill: Bill)
    requires RowsFit(db) && SameTables(db, db')
    ensures BalanceAt(db', bill) == BalanceAt(db, bill)
  {
    RefundsStay(db, db', db.refunds, bill.id);
  }

  lemma PriceReadsTables(db: Db, db': Db, b: int, lines: seq<BillLine>, now: int)
    requires SameTables(db, db') && IsBill(db, b) && PriceTx(db, b, lines, now).Ok?
    requires BalanceAt(db', Price(db.bills[b], lines, now)) == BalanceAt(db, Price(db.bills[b], lines, now))
    ensures PriceTx(db', b, lines, now).Ok?
    ensures SameTables(PriceTx(db, b, lines, now).value, PriceTx(db', b, lines, now).value)
  {
    hide BalanceAt, Price;
  }

  lemma PricingReadsTables(db: Db, db': Db, b: int, c: Completion, inWarranty: bool, fee: int, now: int)
    requires RowsFit(db) && SameTables(db, db') && PriceCompleted(db, b, c, inWarranty, fee, now).Ok?
    ensures PriceCompleted(db', b, c, inWarranty, fee, now).Ok?
    ensures SameTables(PriceCompleted(db, b, c, inWarranty, fee, now).value,
                       PriceCompleted(db', b, c, inWarranty, fee, now).value)
  {
    if db.bills[b].status == Open {
      var lines := PricedLines(c.services, inWarranty, fee);
      BalanceReadsTables(db, db', Price(db.bills[b], lines, now));
      hide BalanceAt, Price, PricedLines, RowsFit, PriceTx;
      PriceReadsTables(db, db', b, lines, now);
    }
  }

  /** The database in which a completion prices its bill, and the bill it prices. */
  function ToPrice(db: Db, story: Story, eventId: string): Outcome {
    var c := story.completion;
    var noted := NoteCompleted(db, CompletedTopic(), eventId, c, KnownRef(db.refs, c.appointment));
    var live := LiveBill(db.bills, c.appointment);
    if live.Some? then Outcome(noted, live.value)
    else
      var added := NewBill(|noted.bills|, c.appointment, c.customer, c.vehicle, c.currency);
      Outcome(noted.(bills := noted.bills + [added]), |noted.bills|)
  }

  lemma CompletedUnfolds(db: Db, story: Story, d: Delivery)
    requires d.Completed? && d.warranty.Some? && (CompletedTopic(), d.eventId) !in db.processed
    requires story.completion.appointment == story.Appointment()
    ensures var at := ToPrice(db, story, d.eventId); var c := story.completion;
      var r := PriceCompleted(at.db, at.row, c, d.warranty.value, d.fee, d.now);
      && Transacted(db, story, d) == (if EstimateOf(c.services) >= 0 && r.Ok? then Some(r.value) else None)
      && (LiveBill(db.bills, c.appointment).None? ==>
           OpenBillTx(NoteCompleted(db, CompletedTopic(), d.eventId, c, KnownRef(db.refs, c.appointment)),
                      c.appointment, c.customer, c.vehicle, c.currency) == Ok(at))
  {
    hide PriceCompleted, EstimateOf, LiveBill;
  }

  lemma ToPriceIsGood(db: Db, story: Story, d: Delivery)
    requires Good(db) && d.Completed? && d.warranty.Some? && (CompletedTopic(), d.eventId) !in db.processed
    requires story.completion.appointment == story.Appointment()
    ensures var at := ToPrice(db, story, d.eventId);
      && Good(at.db) && IsBill(at.db, at.row)
      && at.db.bills[at.row].appointment == story.Appointment() && at.db.bills[at.row].status != Void
      && at.db.refs == RefsCompleted(db, story) && at.db.processed == db.processed + {(CompletedTopic(), d.eventId)}
      && at.db.payments == db.payments && at.db.refunds == db.refunds
  {
    hide Good, Transacted, LiveBill, EstimateOf, CompletedTopic;
    var c := story.completion;
    LiveBillFinds(db.bills, c.appointment);
    CompletedUnfolds(db, story, d);
    NotedIs(db, story, d.eventId);
    var noted := NoteCompleted(db, CompletedTopic(), d.eventId, c, KnownRef(db.refs, c.appointment));
    BookkeepingKeepsGood(db, noted);
    if LiveBill(db.bills, c.appointment).None? {
      OpeningKeepsGood(noted, c.appointment, c.customer, c.vehicle, c.currency);
    }
  }

  lemma NotedIs(db: Db, story: Story, eventId: string)
    ensures var c := story.completion;
      var noted := NoteCompleted(db, CompletedTopic(), eventId, c, KnownRef(db.refs, c.appointment));
      && SameTables(db, noted) && noted.outbox == db.outbox && noted.refs == RefsCompleted(db, story)
      && noted.processed == db.processed + {(CompletedTopic(), eventId)}
  {
    hide EstimateOf, CompletedTopic;
  }

  /** A completion before any end prices the bill, or fails and leaves no trace. */
  lemma CompleteFirst(db0: Db, db: Db, story: Story, d: Delivery)
    requires Good(db0) && Good(db) && SameTables(db0, db) && Tells(story) && d.Completed?
    requires (CompletedTopic(), d.eventId) !in db0.processed && (CompletedTopic(), d.eventId) !in db.processed
    ensures var end := Deliver(db, story, d);
      if Transacted(db, story, d).Some?
      then Transacted(db0, story, d).Some? && SameTables(Deliver(db0, story, d), end)
           && Good(end) && RestsCompleted(end, story)
           && end.refs == RefsCompleted(db, story) && end.processed == db.processed + {(CompletedTopic(), d.eventId)}
      else end == db
  {
    if Transacted(db, story, d).Some? {
      var c, at, at0 := story.completion, ToPrice(db, story, d.eventId), ToPrice(db0, story, d.eventId);
      CompletedUnfolds(db, story, d);
      CompletedUnfolds(db0, story, d);
      ToPriceIsGood(db, story, d);
      ToPriceIsGood(db0, story, d);
      SamePriced(db0, db, story, d.eventId);
      PricingShape(at.db, at.row, c, d.warranty.value, d.fee, d.now);
      PricingKeepsGood(at.db, at.row, c, d.warranty.value, d.fee, d.now);
      GoodIsUnique(at.db);
      PricingReadsTables(at.db, at0.db, at.row, c, d.warranty.value, d.fee, d.now);
      GoodIsUnique(Deliver(db, story, d));
      PricedBillIsLive(Deliver(db, story, d), story, at.row);
    }
    hide Good, Transacted, PriceCompleted, ToPrice, LiveBill;
  }

  lemma SamePriced(db0: Db, db: Db, story: Story, eventId: string)
    requires SameTables(db0, db)
    ensures var at, at0 := ToPrice(db, story, eventId), ToPrice(db0, story, eventId);
      at.row == at0.row && SameTables(at.db, at0.db)
  {
  }

  lemma PricedBillIsLive(db: Db, story: Story, b: int)
    requires Unique(db) && IsBill(db, b) && db.bills[b].appointment == story.Appointment()
    requires db.bills[b].status != Void && db.bills[b].status != Open && EstimateOf(story.completion.services) >= 0
    ensures RestsCompleted(db, story)
  {
    LiveBillFinds(db.bills, story.Appointment());
    var live := LiveBill(db.bills, story.Appointment());
    assert live.Some?;
    assert live.value == b;
  }
}
