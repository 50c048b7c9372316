/** What scheduler's events come to on a bill: what a completion charges, and what a cancellation voids. */
module BilledWork {
  import opened Prelude
  import opened Balances
  import opened Settlement
  import opened SettlementRuns
  import opened SettlementOutcomes

  // --- The lines of a bill ----------------------------------------------------------

  /** The warranty fee as it is charged: nothing for a covered vehicle. */
  function FeeCharged(inWarranty: bool, fee: int): int {
    if inWarranty || fee <= 0 then 0 else fee
  }

  /** The lines are the services one by one, in order, after the warranty fee if one is charged. */
  ghost predicate LinesFor(lines: seq<BillLine>, services: seq<CompletedService>, charged: int) {
    var first := if charged > 0 then 1 else 0;
    && |lines| == first + |services|
    && (charged > 0 ==>
         lines[0].kind == WarrantyFeeLine && lines[0].quantity == 1 && lines[0].unitPrice == charged)
    && (forall i :: 0 <= i < |services| ==>
         && lines[first + i].kind == ServiceLine && lines[first + i].name == services[i].name
         && lines[first + i].quantity == services[i].quantity && lines[first + i].unitPrice == services[i].unitPrice)
  }

  /** Adding up the lines by kind gives the services' worth and the fee. */
  lemma LinesAreWorth(services: seq<CompletedService>, inWarranty: bool, fee: int)
    ensures var lines := PricedLines(services, inWarranty, fee); var charged := FeeCharged(inWarranty, fee);
      && LinesFor(lines, services, charged)
      && LinesSum(lines, ServiceLine) == EstimateOf(services)
      && LinesSum(lines, WarrantyFeeLine) == charged
      && LinesSum(lines, MaterialLine) == 0
  {
    LinesAreFor(services, inWarranty, fee);
    hide LinesFor;
    LinesAdd(services, inWarranty, fee, ServiceLine);
    LinesAdd(services, inWarranty, fee, WarrantyFeeLine);
    LinesAdd(services, inWarranty, fee, MaterialLine);
  }

  lemma LinesAreFor(services: seq<CompletedService>, inWarranty: bool, fee: int)
    ensures LinesFor(PricedLines(services, inWarranty, fee), services, FeeCharged(inWarranty, fee))
  {
  }

  lemma {:induction false} LinesAdd(services: seq<CompletedService>, inWarranty: bool, fee: int, kind: LineKind)
    ensures LinesSum(PricedLines(services, inWarranty, fee), kind)
         == match kind
            case ServiceLine => EstimateOf(services)
            case WarrantyFeeLine => FeeCharged(inWarranty, fee)
            case MaterialLine => 0
  {
    if services == [] {
      NoServicesAdd(inWarranty, fee, kind);
    } else {
      var n := |services| - 1;
      LinesAdd(services[..n], inWarranty, fee, kind);
      LastLine(services, inWarranty, fee);
      hide PricedLines;
      OneLineAdds(PricedLines(services[..n], inWarranty, fee),
                  BillLine(ServiceLine, services[n].name, services[n].quantity, services[n].unitPrice), kind);
    }
  }

  lemma NoServicesAdd(inWarranty: bool, fee: int, kind: LineKind)
    ensures LinesSum(PricedLines([], inWarranty, fee), kind)
         == if kind == WarrantyFeeLine then FeeCharged(inWarranty, fee) else 0
  {
    var lines := PricedLines([], inWarranty, fee);
    assert lines != [] ==> lines[..|lines| - 1] == [];
  }

  lemma LastLine(services: seq<CompletedService>, inWarranty: bool, fee: int)
    requires services != []
    ensures var last := services[|services| - 1];
      PricedLines(services, inWarranty, fee)
      == PricedLines(services[..|services| - 1], inWarranty, fee)
         + [BillLine(ServiceLine, last.name, last.quantity, last.unitPrice)]
  {
  }

  lemma OneLineAdds(lines: seq<BillLine>, line: BillLine, kind: LineKind)
    ensures LinesSum(lines + [line], kind)
         == LinesSum(lines, kind) + if line.kind == kind then line.quantity * line.unitPrice else 0
  {
    assert (lines + [line])[..|lines|] == lines;
  }

  /** Each service is worth its price times its quantity, and the estimate is their sum. */
  lemma {:induction false} EstimateAddsUp(one: seq<CompletedService>, other: seq<CompletedService>)
    ensures EstimateOf([]) == 0
    ensures forall svc: CompletedService :: EstimateOf([svc]) == svc.quantity * svc.unitPrice
    ensures EstimateOf(one + other) == EstimateOf(one) + EstimateOf(other)
    decreases |other|
  {
    forall svc: CompletedService ensures EstimateOf([svc]) == svc.quantity * svc.unitPrice {
      assert [svc][..0] == [];
    }
    if other == [] {
      assert one + other == one;
    } else {
      var n := |other| - 1;
      EstimateAddsUp(one, other[..n]);
      assert (one + other)[..|one + other| - 1] == one + other[..n];
    }
  }

  // --- A completion ---------------------------------------------------------------------

  /** What is paid toward bill b. */
  function HeldFor(db: Db, b: int): int {
    PaidSum(db.payments, b) - RefundedSum(RefundsOf(db, db.refunds, b))
  }

  /** The bill says what the completion's services and the fee come to, and how much of that is held. */
  ghost predicate Charges(bill: Bill, c: Completion, charged: int, held: int, now: int) {
    && bill.serviceFee == EstimateOf(c.services) && bill.warrantyFee == charged && bill.materialCost == 0
    && bill.Total() == EstimateOf(c.services) + charged
    && LinesFor(bill.lines, c.services, charged) && bill.finalizedAt == Some(now)
    && bill.status == if bill.Total() <= held then Paid else if held > 0 then PartiallyPaid else Pending
  }

  /** A priced bill is announced if part of it is due. */
  function Ready(bill: Bill, held: int): seq<Event> {
    if bill.Total() <= held then []
    else [BillReady(bill.id, bill.status, bill.Total(), held, bill.Total() - held)]
  }

  /** The bill is still the same appointment's. */
  predicate SameBill(a: Bill, b: Bill) {
    && b.id == a.id && b.appointment == a.appointment && b.customer == a.customer
    && b.vehicle == a.vehicle && b.currency == a.currency
  }

  /** From db to db' bill b was charged and announced, and nothing else of bills, payments and events changed. */
  ghost predicate BilledAs(db: Db, db': Db, b: int, c: Completion, charged: int, now: int)
    requires IsBill(db, b)
  {
    && |db'.bills| == |db.bills| && db'.bills == db.bills[b := db'.bills[b]]
    && SameBill(db.bills[b], db'.bills[b]) && Charges(db'.bills[b], c, charged, HeldFor(db, b), now)
    && db'.payments == db.payments && db'.refunds == db.refunds
    && db'.outbox == db.outbox + Ready(db'.bills[b], HeldFor(db, b))
  }

  /** A completion charges an OPEN bill the services it names, and the warranty fee exactly if the
      vehicle is not covered; a bill that is not OPEN it leaves alone. */
  lemma PricingBills(db: Db, b: int, c: Completion, inWarranty: bool, fee: int, now: int)
    requires Good(db) && PriceCompleted(db, b, c, inWarranty, fee, now).Ok?
    ensures IsBill(db, b)
    ensures var end := PriceCompleted(db, b, c, inWarranty, fee, now).value;
      && end.refs == db.refs && end.processed == db.processed
      && if db.bills[b].status != Open then end == db
         else BilledAs(db, end, b, c, FeeCharged(inWarranty, fee), now)
  {
    hide *;
    PriceCompletedIs(db, b, c, inWarranty, fee, now);
    if db.bills[b].status == Open {
      var lines := PricedLines(c.services, inWarranty, fee);
      LinesAreWorth(c.services, inWarranty, fee);
      GoodIsSound(db, b);
      PricedIs(db.bills[b], lines, now);
      PriceTxIs(db, b, lines, now);
      PricedBalance(db, b, Price(db.bills[b], lines, now));
      IsBilledAs(db, b, c, lines, FeeCharged(inWarranty, fee), now);
    }
  }

  lemma PriceCompletedIs(db: Db, b: int, c: Completion, inWarranty: bool, fee: int, now: int)
    requires PriceCompleted(db, b, c, inWarranty, fee, now).Ok?
    ensures IsBill(db, b) && 0 <= b < |db.bills|
    ensures db.bills[b].status != Open ==> PriceCompleted(db, b, c, inWarranty, fee, now) == Ok(db)
    ensures db.bills[b].status == Open ==>
      PriceCompleted(db, b, c, inWarranty, fee, now)
      == PriceTx(db, b, PricedLines(c.services, inWarranty, fee), now)
  {
    hide PriceTx, PricedLines;
  }

  lemma PricedIs(bill: Bill, lines: seq<BillLine>, now: int)
    ensures var priced := Price(bill, lines, now);
      && priced == bill.(warrantyFee := priced.warrantyFee, serviceFee := priced.serviceFee,
                         materialCost := priced.materialCost, status := Pending, finalizedAt := Some(now),
                         lines := lines)
      && priced.serviceFee == LinesSum(lines, ServiceLine) && priced.warrantyFee == LinesSum(lines, WarrantyFeeLine)
      && priced.materialCost == LinesSum(lines, MaterialLine) && priced.Priced()
  {
    hide LinesSum;
  }

  lemma IsBilledAs(db: Db, b: int, c: Completion, lines: seq<BillLine>, charged: int, now: int)
    requires IsBill(db, b) && db.bills[b].id == b && PriceTx(db, b, lines, now).Ok?
    requires var priced := Price(db.bills[b], lines, now); var balance := BalanceAt(db, priced);
      && balance == Ok(Balance(priced.Total(), PaidSum(db.payments, b), RefundedSum(RefundsOf(db, db.refunds, b))))
      && priced == db.bills[b].(warrantyFee := charged, serviceFee := EstimateOf(c.services), materialCost := 0,
                                status := Pending, finalizedAt := Some(now), lines := lines)
      && var saved := priced.(status := balance.value.StatusFor(priced));
         PriceTx(db, b, lines, now).value
         == db.(bills := db.bills[b := saved],
                outbox := db.outbox + if balance.value.Due() <= 0 then []
                  else [BillReady(b, saved.status, saved.Total(), balance.value.Held(), balance.value.Due())])
    requires LinesFor(lines, c.services, charged)
    ensures BilledAs(db, PriceTx(db, b, lines, now).value, b, c, charged, now)
    ensures var end := PriceTx(db, b, lines, now).value; end.refs == db.refs && end.processed == db.processed
  {
    hide PriceTx, Price, BalanceAt, LinesFor, EstimateOf, PaidSum, RefundedSum, RefundsOf;
  }

  lemma GoodIsSound(db: Db, b: int)
    requires Good(db) && IsBill(db, b)
    ensures RowsFit(db) && CurrenciesFit(db) && db.bills[b].id == b
  {
  }

  lemma PriceTxIs(db: Db, b: int, lines: seq<BillLine>, now: int)
    requires IsBill(db, b) && PriceTx(db, b, lines, now).Ok?
    ensures BalanceAt(db, Price(db.bills[b], lines, now)).Ok?
    ensures var priced := Price(db.bills[b], lines, now); var balance := BalanceAt(db, priced).value;
      var saved := priced.(status := balance.StatusFor(priced));
      && PriceTx(db, b, lines, now).value
         == db.(bills := db.bills[b := saved],
                outbox := db.outbox + if balance.Due() <= 0 then []
                  else [BillReady(b, saved.status, saved.Total(), balance.Held(), balance.Due())])
  {
    hide BalanceAt, LinesSum;
    assert db.outbox + [] == db.outbox;
  }

  // --- The whole handler of a completion ------------------------------------------------------

  /** A bill takes only lines of at least one unit, at no negative price. */
  predicate Billable(c: Completion) {
    forall i :: 0 <= i < |c.services| ==> c.services[i].quantity > 0 && c.services[i].unitPrice >= 0
  }

  /** The copy that was known, ended; or else what the completion tells of the booking. */
  predicate CompletedCopy(ref: AppointmentRef, c: Completion, known: Option<AppointmentRef>) {
    && ref.status == RefCompleted
    && (known.Some? ==> ref == known.value.(status := RefCompleted))
    && (known.None? ==>
         && ref.appointment == c.appointment && ref.customer == c.customer && ref.vehicle == c.vehicle
         && ref.dealership == c.dealership && ref.estimate == Money(EstimateOf(c.services), c.currency))
  }

  predicate NoLiveBill(db: Db, appointment: int) {
    forall b :: 0 <= b < |db.bills| && db.bills[b].appointment == appointment ==> db.bills[b].status == Void
  }

  /** A completion commits exactly if it adds up to no negative amount and its bill, if it is still OPEN
      or has to be opened, can take its lines in its currency. */
  lemma CompletionCommitsIff(db: Db, source: string, eventId: string, c: Completion, inWarranty: bool, fee: int,
                             known: Option<AppointmentRef>, seen: Option<int>, now: int)
    requires Good(db) && (source, eventId) !in db.processed
    ensures CompletedTx(db, source, eventId, c, inWarranty, fee, known, seen, now).Ok? <==>
      && EstimateOf(c.services) >= 0
      && match seen
         case None => NoLiveBill(db, c.appointment) && Billable(c)
         case Some(b) =>
           && 0 <= b < |db.bills|
           && (db.bills[b].status == Open ==> db.bills[b].currency == c.currency && Billable(c))
  {
    hide *;
    var noted := NoteCompleted(db, source, eventId, c, known);
    NotedIs(db, source, eventId, c, known);
    BookkeepingKeepsGood(db, noted);
    LiveBillFinds(db.bills, c.appointment);
    CompletedIs(db, source, eventId, c, inWarranty, fee, known, seen, now);
    if seen.Some? {
      PricingCommitsIff(noted, seen.value, c, inWarranty, fee, now);
    } else if EstimateOf(c.services) >= 0 && LiveBill(db.bills, c.appointment).None? {
      var created := OpenBillTx(noted, c.appointment, c.customer, c.vehicle, c.currency);
      OpeningKeepsGood(noted, c.appointment, c.customer, c.vehicle, c.currency);
      PricingCommitsIff(created.value.db, created.value.row, c, inWarranty, fee, now);
    }
    NoLiveBillIs(db, c.appointment);
  }

  lemma NoLiveBillIs(db: Db, appointment: int)
    ensures NoLiveBill(db, appointment) <==> LiveBill(db.bills, appointment).None?
  {
    LiveBillFinds(db.bills, appointment);
    hide LiveBill;
  }

  lemma NotedIs(db: Db, source: string, eventId: string, c: Completion, known: Option<AppointmentRef>)
    ensures var noted := NoteCompleted(db, source, eventId, c, known);
      && noted == db.(processed := db.processed + {(source, eventId)}, refs := noted.refs)
      && noted.bills == db.bills && noted.payments == db.payments
      && noted.refunds == db.refunds && noted.outbox == db.outbox
      && c.appointment in noted.refs && noted.refs - {c.appointment} == db.refs - {c.appointment}
      && CompletedCopy(noted.refs[c.appointment], c, known)
  {
    hide EstimateOf;
  }

  lemma CompletedIs(db: Db, source: string, eventId: string, c: Completion, inWarranty: bool, fee: int,
                    known: Option<AppointmentRef>, seen: Option<int>, now: int)
    requires (source, eventId) !in db.processed
    ensures var r := CompletedTx(db, source, eventId, c, inWarranty, fee, known, seen, now);
      var noted := NoteCompleted(db, source, eventId, c, known);
      var added := OpenBillTx(noted, c.appointment, c.customer, c.vehicle, c.currency);
      if EstimateOf(c.services) < 0 then r.Err?
      else if seen.Some? then r == PriceCompleted(noted, seen.value, c, inWarranty, fee, now)
      else
        && (added.Ok? <==> LiveBill(db.bills, c.appointment).None?)
        && if added.Err? then r.Err?
           else
             && var b := |db.bills|; var grown := added.value.db;
             && added.value.row == b && grown == noted.(bills := grown.bills)
             && |grown.bills| == b + 1 && grown.bills[..b] == db.bills && grown.bills[b].status == Open
             && grown.bills[b].id == b && grown.bills[b].appointment == c.appointment
             && grown.bills[b].customer == c.customer && grown.bills[b].vehicle == c.vehicle
             && grown.bills[b].currency == c.currency
             && r == PriceCompleted(grown, b, c, inWarranty, fee, now)
  {
    hide PriceCompleted, LiveBill, EstimateOf;
  }

  lemma PricingCommitsIff(db: Db, b: int, c: Completion, inWarranty: bool, fee: int, now: int)
    requires Good(db)
    ensures PriceCompleted(db, b, c, inWarranty, fee, now).Ok? <==>
      && 0 <= b < |db.bills|
      && (db.bills[b].status == Open ==> db.bills[b].currency == c.currency && Billable(c))
  {
    if IsBill(db, b) {
      var lines := PricedLines(c.services, inWarranty, fee);
      hide PricedLines;
      PriceTxCommits(db, b, lines, now);
      hide PriceTx, Good;
    }
  }

  /** In a state that the transactions keep, a bill can always be priced. */
  lemma PriceTxCommits(db: Db, b: int, lines: seq<BillLine>, now: int)
    requires Good(db) && IsBill(db, b)
    ensures PriceTx(db, b, lines, now).Ok?
  {
    var priced := Price(db.bills[b], lines, now);
    PricedIs(db.bills[b], lines, now);
    hide *;
    GoodIsSound(db, b);
    BalanceExists(db, b, priced);
    CommitsWithBalance(db, b, lines, now);
  }

  lemma BalanceExists(db: Db, b: int, bill: Bill)
    requires RowsFit(db) && CurrenciesFit(db) && IsBill(db, b)
    requires bill.id == b && bill.currency == db.bills[b].currency
    ensures BalanceAt(db, bill).Ok?
  {
    CapturedInAll(db, b, bill);
    RefundsFit(db);
    hide CurrenciesFit, BalanceAt, PaidSum, RefundedSum, RefundsOf, CapturedIn;
    BalanceIsTheSum(db, b, bill);
  }

  lemma RefundsFit(db: Db)
    requires RowsFit(db) && CurrenciesFit(db)
    ensures forall i :: 0 <= i < |db.refunds| && db.refunds[i].status == RefundSucceeded ==>
      db.refunds[i].amount.currency == db.bills[db.payments[db.refunds[i].paymentId].billId].currency
  {
    hide CapturedIn;
  }

  lemma CommitsWithBalance(db: Db, b: int, lines: seq<BillLine>, now: int)
    requires IsBill(db, b) && BalanceAt(db, Price(db.bills[b], lines, now)).Ok?
    ensures PriceTx(db, b, lines, now).Ok?
  {
    hide BalanceAt, Price;
  }

  lemma CapturedInAll(db: Db, b: int, bill: Bill)
    requires RowsFit(db) && CurrenciesFit(db) && IsBill(db, b)
    requires bill.id == b && bill.currency == db.bills[b].currency
    ensures forall i :: 0 <= i < |db.payments| ==> CapturedIn(db.payments[i], bill)
  {
    forall i | 0 <= i < |db.payments| ensures CapturedIn(db.payments[i], bill) {
      assert CapturedIn(db.payments[i], db.bills[db.payments[i].billId]);
    }
  }

  /** What a committed completion leaves: the event's id, the booking as completed, and the bill, which is
      opened for the completion's customer and vehicle if there was none, charged if it was still OPEN. */
  lemma CompletionWrites(db: Db, source: string, eventId: string, c: Completion, inWarranty: bool, fee: int,
                         known: Option<AppointmentRef>, seen: Option<int>, now: int)
    requires Good(db) && (source, eventId) !in db.processed
    requires CompletedTx(db, source, eventId, c, inWarranty, fee, known, seen, now).Ok?
    ensures seen.Some? ==> 0 <= seen.value < |db.bills|
    ensures var end := CompletedTx(db, source, eventId, c, inWarranty, fee, known, seen, now).value;
      && end.processed == db.processed + {(source, eventId)}
      && c.appointment in end.refs && end.refs - {c.appointment} == db.refs - {c.appointment}
      && CompletedCopy(end.refs[c.appointment], c, known)
    ensures var end := CompletedTx(db, source, eventId, c, inWarranty, fee, known, seen, now).value;
      var charged := FeeCharged(inWarranty, fee);
      match seen
      case Some(b) =>
        if db.bills[b].status == Open then BilledAs(db, end, b, c, charged, now)
        else end.bills == db.bills && end.payments == db.payments && end.outbox == db.outbox
      case None =>
        && var b := |db.bills|;
        && |end.bills| == b + 1 && end.bills[..b] == db.bills && end.payments == db.payments
        && end.bills[b].id == b && end.bills[b].appointment == c.appointment
        && end.bills[b].customer == c.customer && end.bills[b].vehicle == c.vehicle
        && end.bills[b].currency == c.currency
        && Charges(end.bills[b], c, charged, HeldFor(db, b), now)
        && end.outbox == db.outbox + Ready(end.bills[b], HeldFor(db, b))
  {
    hide *;
    var noted := NoteCompleted(db, source, eventId, c, known);
    NotedIs(db, source, eventId, c, known);
    BookkeepingKeepsGood(db, noted);
    GoodHasRows(db);
    CompletedIs(db, source, eventId, c, inWarranty, fee, known, seen, now);
    if seen.Some? {
      PricingBills(noted, seen.value, c, inWarranty, fee, now);
      BilledSame(noted, db, seen.value, c, FeeCharged(inWarranty, fee), now,
                 CompletedTx(db, source, eventId, c, inWarranty, fee, known, seen, now).value);
    } else {
      var grown := OpenBillTx(noted, c.appointment, c.customer, c.vehicle, c.currency).value.db;
      OpeningKeepsGood(noted, c.appointment, c.customer, c.vehicle, c.currency);
      PricingBills(grown, |db.bills|, c, inWarranty, fee, now);
      BilledNew(grown, db, c, FeeCharged(inWarranty, fee), now,
                CompletedTx(db, source, eventId, c, inWarranty, fee, known, seen, now).value);
    }
  }

  lemma BilledSame(noted: Db, db: Db, b: int, c: Completion, charged: int, now: int, end: Db)
    requires noted.bills == db.bills && noted.payments == db.payments
    requires noted.refunds == db.refunds && noted.outbox == db.outbox && IsBill(noted, b) && RowsFit(db)
    ensures 0 <= b < |db.bills|
    ensures db.bills[b].status == Open && BilledAs(noted, end, b, c, charged, now) ==>
      BilledAs(db, end, b, c, charged, now)
  {
    HeldStays(db, noted, b);
    hide Charges, Ready, HeldFor, RowsFit;
  }

  lemma HeldStays(db: Db, db': Db, b: int)
    requires RowsFit(db) && db'.payments == db.payments && db'.refunds == db.refunds
    ensures HeldFor(db', b) == HeldFor(db, b)
  {
    RefundsStay(db, db', db.refunds, b);
    hide PaidSum, RefundedSum, RefundsOf;
  }

  lemma BilledNew(grown: Db, db: Db, c: Completion, charged: int, now: int, end: Db)
    requires RowsFit(db) && grown.payments == db.payments
    requires grown.refunds == db.refunds && grown.outbox == db.outbox
    requires |grown.bills| == |db.bills| + 1 && grown.bills[..|db.bills|] == db.bills
    requires BilledAs(grown, end, |db.bills|, c, charged, now)
    ensures |end.bills| == |db.bills| + 1 && end.bills[..|db.bills|] == db.bills && end.payments == db.payments
    ensures var added, bill := grown.bills[|db.bills|], end.bills[|db.bills|];
      && bill.id == added.id && bill.appointment == added.appointment && bill.customer == added.customer
      && bill.vehicle == added.vehicle && bill.currency == added.currency
    ensures Charges(end.bills[|db.bills|], c, charged, HeldFor(db, |db.bills|), now)
    ensures end.outbox == db.outbox + Ready(end.bills[|db.bills|], HeldFor(db, |db.bills|))
  {
    HeldStays(db, grown, |db.bills|);
    hide Charges, Ready, HeldFor, RowsFit;
  }

  // --- A cancellation -------------------------------------------------------------------------

  /** Some money of the bill was taken, or is on its way. */
  predicate MoneyCame(payments: seq<Payment>, b: int) {
    exists i :: 0 <= i < |payments| && Counts(payments[i], b)
  }

  predicate Counts(p: Payment, b: int) {
    p.billId == b && p.status in {Succeeded, Refunded, PartiallyRefunded, Processing}
  }

  /** A cancellation ends the booking, and voids its bill exactly if that is OPEN and no money came for it. */
  lemma CancellationWrites(db: Db, source: string, eventId: string, booking: AppointmentRef,
                           known: Option<AppointmentRef>, seen: Option<int>)
    requires (source, eventId) !in db.processed
    ensures var r := CancelledTx(db, source, eventId, booking, known, seen);
      var ref := if known.Some? then known.value else booking;
      && (r.Ok? <==> seen.None? || 0 <= seen.value < |db.bills|)
      && (r.Ok? ==>
           && var end := r.value;
           && end.processed == db.processed + {(source, eventId)}
           && end.refs == db.refs[booking.appointment := ref.(status := RefCancelled)]
           && end.payments == db.payments && end.refunds == db.refunds && end.outbox == db.outbox
           && (seen.None? ==> end.bills == db.bills)
           && (seen.Some? ==>
                && var b := seen.value;
                && |end.bills| == |db.bills| && end.bills == db.bills[b := end.bills[b]]
                && end.bills[b] == if db.bills[b].status == Open && !MoneyCame(db.payments, b)
                                   then db.bills[b].(status := Void) else db.bills[b]))
  {
    if seen.Some? && IsBill(db, seen.value) {
      var b := seen.value;
      var all := PaymentsOf(db.payments, b);
      PaymentsOfAre(db.payments, b);
      if i :| 0 <= i < |db.payments| && Counts(db.payments[i], b) {
        PaymentsOfHas(db.payments, b, i);
        var k :| 0 <= k < |all| && all[k] == db.payments[i];
        assert all[k].status.Captured() || all[k].status == Processing;
      } else {
        forall k | 0 <= k < |all| ensures !all[k].status.Captured() && all[k].status != Processing {
          assert all[k] in all;
          var i :| 0 <= i < |db.payments| && db.payments[i] == all[k];
        }
      }
      assert db.bills[b := db.bills[b]] == db.bills;
    }
    hide PaymentsOf;
  }
}
