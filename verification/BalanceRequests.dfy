/** Why a customer who pays a balance has one payment to make: what payBalance cancels, and what is left open. */
module BalanceRequests {
  import opened Prelude
  import opened Balances
  import opened Settlement
  import opened SettlementRuns
  import opened SettlementOutcomes

  /** The bill's payments that payBalance supersedes: unpaid deposits, and unpaid payments for another amount. */
  function Superseded(payments: seq<Payment>, due: Money): seq<Payment> {
    if payments == [] then []
    else
      var p, rest := payments[0], Superseded(payments[1..], due);
      if p.status == RequiresPayment && (p.kind == Deposit || p.amount != due) then [p] + rest else rest
  }

  /** The provider answers about every intent of these payments. */
  predicate Answerable(stale: seq<Payment>, answers: map<string, Intent>) {
    forall i :: 0 <= i < |stale| && stale[i].intent.Some? ==> stale[i].intent.value in answers
  }

  /** The transaction that supersedes p: what the provider says of its intent, or FAILED if it never had one. */
  function Cancellation(db: Db, p: Payment, answers: map<string, Intent>, now: int): Action
    requires p.intent.Some? ==> p.intent.value in answers
  {
    if p.intent.None? then MarkFailed(p.id, "superseded", "replaced by a newer payment")
    else Observe(p.id, if IsPayment(db, p.id) then db.payments[p.id] else p, answers[p.intent.value], false, now)
  }

  /** One after the other, each on what the ones before it left. */
  function Cancellations(db: Db, stale: seq<Payment>, answers: map<string, Intent>, now: int): seq<Action>
    requires Answerable(stale, answers)
    decreases |stale|
  {
    if stale == [] then []
    else
      var a := Cancellation(db, stale[0], answers, now);
      [a] + Cancellations(Exec(db, a), stale[1..], answers, now)
  }

  lemma {:induction false} CancellationsOneMore(db: Db, stale: seq<Payment>, p: Payment,
                                                answers: map<string, Intent>, now: int)
    requires Answerable(stale, answers) && (p.intent.Some? ==> p.intent.value in answers)
    ensures Answerable(stale + [p], answers)
    ensures var before := Cancellations(db, stale, answers, now);
      var a := Cancellation(Run(db, before), p, answers, now);
      && Cancellations(db, stale + [p], answers, now) == before + [a]
      && Run(db, before + [a]) == Exec(Run(db, before), a)
    decreases |stale|
  {
    hide Exec, Cancellation;
    if stale == [] {
      assert [] + [p] == [p] && [p][1..] == [];
      RunOneMore(db, [], Cancellation(db, p, answers, now));
    } else {
      var next := Exec(db, Cancellation(db, stale[0], answers, now));
      assert (stale + [p])[1..] == stale[1..] + [p];
      CancellationsOneMore(next, stale[1..], p, answers, now);
      var before := Cancellations(db, stale, answers, now);
      RunOneMore(db, before, Cancellation(Run(db, before), p, answers, now));
    }
  }

  /** Every intent among these was canceled when asked to be. */
  predicate AllCanceled(stale: seq<Payment>, answers: map<string, Intent>) {
    forall i :: 0 <= i < |stale| && stale[i].intent.Some? ==>
      stale[i].intent.value in answers && answers[stale[i].intent.value].status == IntentCanceled
  }

  // --- One cancellation --------------------------------------------------------------

  ghost predicate Canceled1(p: Payment, q: Payment) {
    SameMoney(p, q) && q.kind == p.kind && (q.status == Canceled || q.status == FailedPayment)
  }

  /** Only p's row changed, and p was canceled. */
  ghost predicate CanceledJust(db: Db, next: Db, p: Payment)
    requires IsPayment(db, p.id)
  {
    && next.bills == db.bills && next.refunds == db.refunds
    && |next.payments| == |db.payments| && next.payments == db.payments[p.id := next.payments[p.id]]
    && Canceled1(p, next.payments[p.id])
  }

  lemma CancelOne(db: Db, p: Payment, answers: map<string, Intent>, now: int)
    requires Good(db) && IsPayment(db, p.id) && db.payments[p.id] == p && p.status == RequiresPayment
    requires p.intent.Some? ==> p.intent.value in answers && answers[p.intent.value].status == IntentCanceled
    ensures var next := Exec(db, Cancellation(db, p, answers, now)); Good(next) && CanceledJust(db, next, p)
  {
    hide Good, ApplyTx, MarkFailedTx, Moved, Unique, RowsFit;
    ExecKeepsGood(db, Cancellation(db, p, answers, now));
    GoodIs(db);
    if p.intent.Some? {
      CancelCommits(db, p, answers[p.intent.value], now);
      MovedIsCanceled(p, answers[p.intent.value], now);
    } else {
      FailCommits(db, p);
    }
  }

  lemma GoodIs(db: Db)
    requires Good(db)
    ensures Unique(db) && RowsFit(db)
  {
  }

  lemma MovedIsCanceled(p: Payment, intent: Intent, now: int)
    requires intent.status == IntentCanceled
    ensures var next := Moved(p, intent, now); Canceled1(p, next.(version := next.version + 1))
  {
  }

  lemma FailCommits(db: Db, p: Payment)
    requires IsPayment(db, p.id) && db.payments[p.id] == p && p.status == RequiresPayment && p.intent.None?
    ensures CanceledJust(db, Exec(db, MarkFailed(p.id, "superseded", "replaced by a newer payment")), p)
  {
  }

  lemma CancelCommits(db: Db, p: Payment, intent: Intent, now: int)
    requires Unique(db) && RowsFit(db) && IsPayment(db, p.id) && db.payments[p.id] == p && p.status == RequiresPayment
    requires p.intent.Some? && intent.status == IntentCanceled
    ensures var next := Moved(p, intent, now);
      ApplyTx(db, p.id, p, intent, false, now)
      == Ok(db.(payments := db.payments[p.id := next.(version := next.version + 1)]))
  {
    assert !IntentOfAnother(db, p.id, p.intent);
    assert db.payments[p.id].(id := p.id) == p;
  }

  // --- All of them ----------------------------------------------------------------------

  /** These rows are stored, each once, and wait for their customer. */
  ghost predicate Waiting(db: Db, stale: seq<Payment>) {
    && (forall k :: 0 <= k < |stale| ==>
         IsPayment(db, stale[k].id) && db.payments[stale[k].id] == stale[k] && stale[k].status == RequiresPayment)
    && (forall k, l :: 0 <= k < l < |stale| ==> stale[k].id != stale[l].id)
  }

  predicate Among(stale: seq<Payment>, i: int) {
    exists k :: 0 <= k < |stale| && stale[k].id == i
  }

  /** From db to end exactly these payments were canceled. */
  ghost predicate OnlyCanceled(db: Db, end: Db, stale: seq<Payment>) {
    && end.bills == db.bills && end.refunds == db.refunds && |end.payments| == |db.payments|
    && (forall i :: 0 <= i < |db.payments| ==>
         if Among(stale, i) then Canceled1(db.payments[i], end.payments[i]) else end.payments[i] == db.payments[i])
  }

  lemma {:induction false} CancelAll(db: Db, stale: seq<Payment>, answers: map<string, Intent>, now: int)
    requires Good(db) && Waiting(db, stale) && AllCanceled(stale, answers)
    ensures Answerable(stale, answers)
    ensures var end := Run(db, Cancellations(db, stale, answers, now)); Good(end) && OnlyCanceled(db, end, stale)
    decreases |stale|
  {
    hide Good;
    if stale == [] {
      assert OnlyCanceled(db, db, []);
    } else {
      var p, rest := stale[0], stale[1..];
      var next := Exec(db, Cancellation(db, p, answers, now));
      CancelOne(db, p, answers, now);
      RestWaits(db, next, stale);
      CancelAll(next, rest, answers, now);
      OnlyCanceledChains(db, next, Run(next, Cancellations(next, rest, answers, now)), p, rest);
      assert [p] + rest == stale;
      CancellationsFirst(db, stale, answers, now);
    }
  }

  lemma CancellationsFirst(db: Db, stale: seq<Payment>, answers: map<string, Intent>, now: int)
    requires stale != [] && Answerable(stale, answers)
    ensures Answerable(stale[1..], answers)
    ensures var next := Exec(db, Cancellation(db, stale[0], answers, now));
      Run(db, Cancellations(db, stale, answers, now)) == Run(next, Cancellations(next, stale[1..], answers, now))
  {
    assert forall k :: 0 <= k < |stale[1..]| ==> stale[1..][k] == stale[k + 1];
    hide Exec, Cancellation;
  }

  lemma RestWaits(db: Db, next: Db, stale: seq<Payment>)
    requires stale != [] && Waiting(db, stale) && CanceledJust(db, next, stale[0])
    ensures Waiting(next, stale[1..]) && !Among(stale[1..], stale[0].id)
  {
    assert forall k :: 0 <= k < |stale[1..]| ==> stale[1..][k] == stale[k + 1];
  }

  lemma OnlyCanceledChains(db: Db, next: Db, end: Db, p: Payment, rest: seq<Payment>)
    requires IsPayment(db, p.id) && db.payments[p.id] == p && !Among(rest, p.id)
    requires CanceledJust(db, next, p) && OnlyCanceled(next, end, rest)
    ensures OnlyCanceled(db, end, [p] + rest)
  {
    forall i | 0 <= i < |db.payments|
      ensures if Among([p] + rest, i) then Canceled1(db.payments[i], end.payments[i])
              else end.payments[i] == db.payments[i]
    {
      assert ([p] + rest)[0] == p;
      if k :| 0 <= k < |rest| && rest[k].id == i {
        assert ([p] + rest)[k + 1] == rest[k];
      }
      if l :| 0 <= l < |[p] + rest| && ([p] + rest)[l].id == i {
        assert l > 0 ==> ([p] + rest)[l] == rest[l - 1];
      }
    }
  }

  predicate IsSuperseded(p: Payment, due: Money) {
    p.status == RequiresPayment && (p.kind == Deposit || p.amount != due)
  }

  ghost predicate ById(payments: seq<Payment>) {
    forall k, l :: 0 <= k < l < |payments| ==> payments[k].id < payments[l].id
  }

  lemma PrependById(p: Payment, rest: seq<Payment>)
    requires ById(rest) && forall q :: q in rest ==> p.id < q.id
    ensures ById([p] + rest)
  {
    forall k, l | 0 <= k < l < |[p] + rest| ensures ([p] + rest)[k].id < ([p] + rest)[l].id {
      assert rest[l - 1] in rest;
    }
  }

  lemma AppendById(init: seq<Payment>, p: Payment)
    requires ById(init) && forall q :: q in init ==> q.id < p.id
    ensures ById(init + [p])
  {
    forall k, l | 0 <= k < l < |init + [p]| ensures (init + [p])[k].id < (init + [p])[l].id {
      assert init[k] in init;
    }
  }

  lemma {:induction false} SupersededAre(payments: seq<Payment>, due: Money)
    ensures forall p :: p in Superseded(payments, due) <==> p in payments && IsSuperseded(p, due)
    ensures ById(payments) ==> ById(Superseded(payments, due))
  {
    if payments != [] {
      var first, rest := payments[0], payments[1..];
      SupersededAre(rest, due);
      assert forall p :: p in payments <==> p == first || p in rest;
      if ById(payments) {
        assert forall k :: 0 <= k < |rest| ==> rest[k] == payments[k + 1] && first.id < payments[k + 1].id;
        assert ById(rest);
        PrependById(first, Superseded(rest, due));
      }
    }
  }

  lemma {:induction false} PaymentsOfKeepIds(payments: seq<Payment>, bill: int)
    requires forall i :: 0 <= i < |payments| ==> payments[i].id == i
    ensures ById(PaymentsOf(payments, bill))
    ensures forall p :: p in PaymentsOf(payments, bill) <==> p in payments && p.billId == bill
  {
    if payments != [] {
      var n := |payments| - 1;
      PaymentsOfKeepIds(payments[..n], bill);
      assert forall p :: p in payments[..n] ==> p.id < n;
      AppendById(PaymentsOf(payments[..n], bill), payments[n]);
      assert forall p :: p in payments <==> p == payments[n] || p in payments[..n];
    }
  }

  /** What payBalance finds superseded waits under the lock as it was read. */
  lemma SupersededWait(db: Db, bill: int, due: Money)
    requires RowsFit(db)
    ensures var stale := Superseded(PaymentsOf(db.payments, bill), due);
      && Waiting(db, stale)
      && forall i :: 0 <= i < |db.payments| ==>
           (Among(stale, i) <==> OpenOn(db, bill, i) && !ForDue(db, bill, i, due))
  {
    var all := PaymentsOf(db.payments, bill);
    var stale := Superseded(all, due);
    PaymentsOfKeepIds(db.payments, bill);
    SupersededAre(all, due);
    forall k | 0 <= k < |stale|
      ensures IsPayment(db, stale[k].id) && db.payments[stale[k].id] == stale[k] && stale[k].billId == bill
      ensures IsSuperseded(stale[k], due)
    {
      assert stale[k] in stale && stale[k] in db.payments;
    }
    forall i | 0 <= i < |db.payments| && OpenOn(db, bill, i) && !ForDue(db, bill, i, due) ensures Among(stale, i) {
      assert db.payments[i] in db.payments && db.payments[i] in stale;
    }
  }

  // --- What is left ------------------------------------------------------------------------

  /** Payment i of the bill waits for its customer. */
  predicate OpenOn(db: Db, bill: int, i: int) {
    IsPayment(db, i) && db.payments[i].billId == bill && db.payments[i].status == RequiresPayment
  }

  /** ... and is a FINAL payment for exactly this amount. */
  predicate ForDue(db: Db, bill: int, i: int, due: Money) {
    OpenOn(db, bill, i) && db.payments[i].kind == Final && db.payments[i].amount == due
  }

  lemma {:induction false} SamePaidSum(payments: seq<Payment>, payments': seq<Payment>, bill: int)
    requires |payments'| == |payments|
    requires forall i :: 0 <= i < |payments| ==> Contribution(payments'[i], bill) == Contribution(payments[i], bill)
    ensures PaidSum(payments', bill) == PaidSum(payments, bill)
  {
    if payments != [] {
      SamePaidSum(payments[..|payments| - 1], payments'[..|payments| - 1], bill);
    }
  }

  /** Canceling changes neither what is due nor whether it can be paid. */
  lemma StillPayable(db: Db, end: Db, bill: int, stale: seq<Payment>)
    requires Good(db) && Good(end) && IsBill(db, bill) && Payable(db, db.bills[bill]).Ok?
    requires Waiting(db, stale) && OnlyCanceled(db, end, stale)
    ensures Payable(end, end.bills[bill]) == Payable(db, db.bills[bill])
  {
    CanceledTakesNothing(db, end, bill, stale);
    SamePaidSum(db.payments, end.payments, bill);
    RefundsStay(db, end, db.refunds, bill);
    SameBalance(db, end, bill);
    NothingProcessing(db, end, bill);
    PayableAgain(db, end, bill);
    hide *;
  }

  lemma PayableAgain(db: Db, end: Db, bill: int)
    requires IsBill(db, bill) && end.bills == db.bills && db.bills[bill].id == bill && Payable(db, db.bills[bill]).Ok?
    requires BalanceAt(end, db.bills[bill]) == BalanceAt(db, db.bills[bill])
    requires forall p :: p in PaymentsOf(end.payments, bill) ==> p.status != Processing
    ensures Payable(end, end.bills[bill]) == Payable(db, db.bills[bill])
  {
    hide BalanceAt, PaymentsOf;
    var all := PaymentsOf(end.payments, bill);
    assert forall i :: 0 <= i < |all| ==> all[i] in all;
  }

  lemma CanceledTakesNothing(db: Db, end: Db, bill: int, stale: seq<Payment>)
    requires Waiting(db, stale) && OnlyCanceled(db, end, stale)
    ensures forall i :: 0 <= i < |db.payments| ==>
      && Contribution(end.payments[i], bill) == Contribution(db.payments[i], bill)
      && end.payments[i].billId == db.payments[i].billId
      && (end.payments[i].status == Processing ==> db.payments[i].status == Processing)
  {
    forall i | 0 <= i < |db.payments| && Among(stale, i) ensures db.payments[i].status == RequiresPayment {
      var k :| 0 <= k < |stale| && stale[k].id == i;
      assert db.payments[stale[k].id] == stale[k];
    }
  }

  lemma SameBalance(db: Db, end: Db, bill: int)
    requires RowsFit(db) && RowsFit(end) && CurrenciesFit(db) && CurrenciesFit(end)
    requires IsBill(db, bill) && end.bills == db.bills && end.refunds == db.refunds
    requires PaidSum(end.payments, bill) == PaidSum(db.payments, bill)
    requires RefundsOf(end, db.refunds, bill) == RefundsOf(db, db.refunds, bill)
    ensures BalanceAt(end, db.bills[bill]) == BalanceAt(db, db.bills[bill])
  {
    BalanceIsTheSum(db, bill, db.bills[bill]);
    BalanceIsTheSum(end, bill, db.bills[bill]);
    forall i | 0 <= i < |db.payments| ensures CapturedIn(db.payments[i], db.bills[bill]) {
      assert CapturedIn(db.payments[i], db.bills[db.payments[i].billId]);
    }
    forall i | 0 <= i < |end.payments| ensures CapturedIn(end.payments[i], db.bills[bill]) {
      assert CapturedIn(end.payments[i], db.bills[end.payments[i].billId]);
    }
  }

  lemma NothingProcessing(db: Db, end: Db, bill: int)
    requires RowsFit(db) && RowsFit(end) && |end.payments| == |db.payments|
    requires forall i :: 0 <= i < |db.payments| ==>
      && end.payments[i].billId == db.payments[i].billId
      && (end.payments[i].status == Processing ==> db.payments[i].status == Processing)
    requires IsBill(db, bill) && Payable(db, db.bills[bill]).Ok?
    ensures forall p :: p in PaymentsOf(end.payments, bill) ==> p.status != Processing
  {
    PaymentsOfKeepIds(db.payments, bill);
    PaymentsOfKeepIds(end.payments, bill);
    var before := PaymentsOf(db.payments, bill);
    forall p | p in PaymentsOf(end.payments, bill) ensures p.status != Processing {
      var i :| 0 <= i < |end.payments| && end.payments[i] == p;
      assert db.payments[i] in db.payments && db.payments[i] in before;
      var l :| 0 <= l < |before| && before[l] == db.payments[i];
    }
  }

  lemma {:induction false} FindOpenMisses(payments: seq<Payment>, kind: PaymentType, amount: Money)
    ensures FindOpen(payments, kind, amount).None? ==>
      forall p :: p in payments ==> !(p.kind == kind && p.status == RequiresPayment && p.amount == amount)
  {
    if payments != [] {
      FindOpenMisses(payments[1..], kind, amount);
      assert forall p :: p in payments <==> p == payments[0] || p in payments[1..];
    }
  }

  /** The decision on a payable bill: an open FINAL payment for what is due, or a new one. */
  lemma DecisionIsForDue(db: Db, bill: int, key: string)
    requires Good(db) && IsBill(db, bill) && Payable(db, db.bills[bill]).Ok? && FindByKey(db.payments, key).None?
    ensures var due := Money(Payable(db, db.bills[bill]).value, db.bills[bill].currency);
      var r := FinalTx(db, bill, key);
      && r.Ok? && ForDue(r.value.db, bill, r.value.row, due)
      && (if r.value.db == db then true
          else r.value.row == |db.payments| && (forall i :: !ForDue(db, bill, i, due))
               && |r.value.db.payments| == |db.payments| + 1 && r.value.db.payments[..|db.payments|] == db.payments)
  {
    var due := Money(Payable(db, db.bills[bill]).value, db.bills[bill].currency);
    GoodIs(db);
    PayableMeans(db, bill);
    DecisionUnfolds(db, bill, key, due);
    hide Good, FinalTx, Payable, PaymentsOf, FindByKey, Standing, ForDue;
    OpenIsForDue(db, bill, due);
    var open := FindOpen(PaymentsOf(db.payments, bill), Final, due);
    if open.None? {
      NewIsForDue(db, bill, key, due);
    }
  }

  lemma DecisionUnfolds(db: Db, bill: int, key: string, due: Money)
    requires IsBill(db, bill) && Payable(db, db.bills[bill]).Ok?
    requires due == Money(Payable(db, db.bills[bill]).value, db.bills[bill].currency)
    ensures var open := FindOpen(PaymentsOf(db.payments, bill), Final, due);
      FinalTx(db, bill, key)
      == if open.Some? then Ok(Outcome(db, open.value)) else InsertPayment(db, bill, Final, due, key)
  {
    hide Payable, FindOpen, PaymentsOf, FindByKey;
  }

  lemma OpenIsForDue(db: Db, bill: int, due: Money)
    requires RowsFit(db)
    ensures var open := FindOpen(PaymentsOf(db.payments, bill), Final, due);
      if open.Some? then ForDue(db, bill, open.value, due) else forall i :: !ForDue(db, bill, i, due)
  {
    var all := PaymentsOf(db.payments, bill);
    PaymentsOfKeepIds(db.payments, bill);
    FindOpenFinds(all, Final, due);
    FindOpenMisses(all, Final, due);
    hide FindOpen, PaymentsOf;
    var open := FindOpen(all, Final, due);
    if open.Some? {
      var k :| 0 <= k < |all| && all[k].id == open.value && all[k].kind == Final
        && all[k].status == RequiresPayment && all[k].amount == due;
      assert all[k] in all && all[k] in db.payments;
    } else {
      forall i ensures !ForDue(db, bill, i, due) {
        if IsPayment(db, i) && db.payments[i].billId == bill {
          assert db.payments[i] in db.payments && db.payments[i] in all;
        }
      }
    }
  }

  lemma NewIsForDue(db: Db, bill: int, key: string, due: Money)
    requires due.minor > 0 && FindByKey(db.payments, key).None?
    ensures var r := InsertPayment(db, bill, Final, due, key);
      && r.Ok? && ForDue(r.value.db, bill, r.value.row, due) && r.value.row == |db.payments| && r.value.db != db
      && |r.value.db.payments| == |db.payments| + 1 && r.value.db.payments[..|db.payments|] == db.payments
  {
    hide FindByKey;
  }

  /** The returned payment is the only one of the bill that still waits for its customer. */
  ghost predicate OnlyOneOpen(db: Db, bill: int, row: int) {
    OpenOn(db, bill, row) && forall i :: OpenOn(db, bill, i) ==> i == row
  }

  ghost predicate AtMostOneFor(db: Db, bill: int, due: Money) {
    forall i, j :: ForDue(db, bill, i, due) && ForDue(db, bill, j, due) ==> i == j
  }

  /** If the provider cancels whatever it is asked to, payBalance leaves nothing of the bill
      open but FINAL payments for exactly what is due: the one it returns, and others only if
      two were open for that amount before. */
  lemma OnePaymentIsLeft(db: Db, bill: int, key: string, answers: map<string, Intent>, now: int)
    requires Good(db) && IsBill(db, bill) && Payable(db, db.bills[bill]).Ok? && FindByKey(db.payments, key).None?
    requires var due := Money(Payable(db, db.bills[bill]).value, db.bills[bill].currency);
      AllCanceled(Superseded(PaymentsOf(db.payments, bill), due), answers)
    ensures var due := Money(Payable(db, db.bills[bill]).value, db.bills[bill].currency);
      var stale := Superseded(PaymentsOf(db.payments, bill), due);
      && Answerable(stale, answers)
      && var decided := FinalTx(Run(db, Cancellations(db, stale, answers, now)), bill, key);
         && decided.Ok? && ForDue(decided.value.db, bill, decided.value.row, due)
         && (forall i :: OpenOn(decided.value.db, bill, i) ==> ForDue(decided.value.db, bill, i, due))
         && (OnlyOneOpen(decided.value.db, bill, decided.value.row) <==> AtMostOneFor(db, bill, due))
  {
    var due := Money(Payable(db, db.bills[bill]).value, db.bills[bill].currency);
    var stale := Superseded(PaymentsOf(db.payments, bill), due);
    SupersededWait(db, bill, due);
    CancelAll(db, stale, answers, now);
    var end := Run(db, Cancellations(db, stale, answers, now));
    StillPayable(db, end, bill, stale);
    SameKeys(db, end, stale, key);
    DecisionIsForDue(end, bill, key);
    LeftOpen(db, end, bill, due, stale);
    OneLeft(db, end, FinalTx(end, bill, key).value, bill, due);
  }

  lemma SameKeys(db: Db, end: Db, stale: seq<Payment>, key: string)
    requires OnlyCanceled(db, end, stale) && FindByKey(db.payments, key).None?
    ensures FindByKey(end.payments, key).None?
  {
    FindByKeyFinds(db.payments, key);
    FindByKeyFinds(end.payments, key);
    forall i | 0 <= i < |db.payments| ensures end.payments[i].key == db.payments[i].key {
      assert Among(stale, i) ==> Canceled1(db.payments[i], end.payments[i]);
    }
  }

  /** After the cancellations exactly the FINAL payments for the amount due are open. */
  lemma LeftOpen(db: Db, end: Db, bill: int, due: Money, stale: seq<Payment>)
    requires OnlyCanceled(db, end, stale)
    requires forall i :: 0 <= i < |db.payments| ==>
      (Among(stale, i) <==> OpenOn(db, bill, i) && !ForDue(db, bill, i, due))
    ensures forall i :: OpenOn(end, bill, i) <==> ForDue(db, bill, i, due)
    ensures forall i :: ForDue(end, bill, i, due) <==> ForDue(db, bill, i, due)
  {
  }

  lemma OneLeft(db: Db, end: Db, decided: Outcome, bill: int, due: Money)
    requires forall i :: OpenOn(end, bill, i) <==> ForDue(db, bill, i, due)
    requires forall i :: ForDue(end, bill, i, due) <==> ForDue(db, bill, i, due)
    requires ForDue(decided.db, bill, decided.row, due)
    requires decided.db == end || (decided.row == |end.payments| && (forall i :: !ForDue(end, bill, i, due))
      && |decided.db.payments| == |end.payments| + 1 && decided.db.payments[..|end.payments|] == end.payments)
    ensures forall i :: OpenOn(decided.db, bill, i) ==> ForDue(decided.db, bill, i, due)
    ensures OnlyOneOpen(decided.db, bill, decided.row) <==> AtMostOneFor(db, bill, due)
  {
    if decided.db != end {
      forall i | 0 <= i < |end.payments| ensures !OpenOn(decided.db, bill, i) {
        assert decided.db.payments[..|end.payments|][i] == decided.db.payments[i];
        assert !OpenOn(end, bill, i);
      }
    }
  }

  // --- Two can be open for the same amount ---------------------------------------------------

  const WORK := Completion(1, 1, 1, 1, "", [CompletedService("", 1, 100)])
  const UNPRICED := NewBill(0, 1, 1, 1, "")
  const HUNDRED := Money(100, "")
  const PRICED := UNPRICED.(serviceFee := 100, status := Pending, finalizedAt := Some(5),
                            lines := [BillLine(ServiceLine, "", 1, 100)])
  const READY := BillReady(0, Pending, 100, 0, 100)
  const COMPLETED := AppointmentRef(1, 1, 1, 1, HUNDRED, RefCompleted)
  const BILLED := Db([PRICED], [], [], map[1 := COMPLETED], {("", "")}, [READY])

  function Asked(id: int, key: string): Payment {
    Payment(id, 0, Final, HUNDRED, RequiresPayment, None, key, None, None, None, None, 0)
  }

  const FAILED := Asked(0, "").(status := FailedPayment, failureCode := Some(""),
                                 failureMessage := Some(""), version := 1)
  const DECLINED := Intent("", RequiresMethod, Some(""), None, None, Some(0))
  const REVIVED := FAILED.(status := RequiresPayment, intent := Some(""), failureCode := Some(""),
                           failureMessage := None, version := 2)

  const NOTED := Db([UNPRICED], [], [], map[1 := COMPLETED], {("", "")}, [])

  lemma WorkIsNoted()
    ensures NoteCompleted(EMPTY.(bills := [UNPRICED]), "", "", WORK, None) == NOTED
    ensures EstimateOf(WORK.services) == 100 && PricedLines(WORK.services, true, 0) == PRICED.lines
  {
    assert WORK.services[..0] == [];
  }

  lemma LineIsPriced()
    ensures Price(UNPRICED, PRICED.lines, 5) == PRICED
  {
    assert PRICED.lines[..0] == [];
  }

  lemma NothingIsPaid(db: Db, bill: Bill)
    requires db.payments == [] && db.refunds == [] && bill.Priced()
    ensures BalanceAt(db, bill) == Ok(Balance(bill.Total(), 0, 0))
  {
  }

  lemma PricingUnfolds(db: Db, lines: seq<BillLine>, now: int, priced: Bill)
    requires IsBill(db, 0) && Price(db.bills[0], lines, now) == priced && priced.status == Pending && priced.Total() > 0
    requires BalanceAt(db, priced) == Ok(Balance(priced.Total(), 0, 0))
    ensures PriceTx(db, 0, lines, now)
         == Ok(db.(bills := db.bills[0 := priced],
                   outbox := db.outbox + [BillReady(0, Pending, priced.Total(), 0, priced.Total())]))
  {
    hide Price, BalanceAt;
    assert priced.(status := Pending) == priced;
  }

  lemma CompletionUnfolds(db: Db, c: Completion, noted: Db, lines: seq<BillLine>, now: int)
    requires ("", "") !in db.processed && EstimateOf(c.services) >= 0 && NoteCompleted(db, "", "", c, None) == noted
    requires IsBill(noted, 0) && noted.bills[0].status == Open && noted.bills[0].currency == c.currency
    requires ValidServices(c.services) && PricedLines(c.services, true, 0) == lines
    ensures CompletedTx(db, "", "", c, true, 0, None, Some(0), now) == PriceTx(noted, 0, lines, now)
  {
    hide NoteCompleted, EstimateOf, PricedLines, PriceTx, ValidServices;
  }

  lemma WorkIsPriced()
    ensures PriceTx(NOTED, 0, PRICED.lines, 5) == Ok(BILLED)
  {
    LineIsPriced();
    NothingIsPaid(NOTED, PRICED);
    hide PriceTx, Price, BalanceAt;
    PricingUnfolds(NOTED, PRICED.lines, 5, PRICED);
    assert NOTED.outbox + [READY] == [READY];
    assert NOTED.bills[0 := PRICED] == [PRICED];
  }

  lemma WorkIsCompleted()
    ensures Exec(EMPTY.(bills := [UNPRICED]), CompletedEvent("", "", WORK, true, 0, None, Some(0), 5)) == BILLED
  {
    WorkIsNoted();
    WorkIsPriced();
    hide PriceTx, NoteCompleted, PricedLines, EstimateOf, CompletedTx;
    CompletionUnfolds(EMPTY.(bills := [UNPRICED]), WORK, NOTED, PRICED.lines, 5);
  }

  lemma BillIsPriced()
    ensures Reached(BILLED)
  {
    WorkIsCompleted();
    assert Exec(EMPTY, OpenBill(1, 1, 1, "")) == EMPTY.(bills := [UNPRICED]);
    assert Run(EMPTY, []) == EMPTY && Reached(EMPTY);
    hide Exec, Run, Reached;
    ReachedNext(EMPTY, OpenBill(1, 1, 1, ""), EMPTY.(bills := [UNPRICED]));
    ReachedNext(EMPTY.(bills := [UNPRICED]), CompletedEvent("", "", WORK, true, 0, None, Some(0), 5), BILLED);
  }

  /** A bill that owes 100, and a first payment for it. */
  lemma AskedOnce()
    ensures Exec(BILLED, PayBalance(0, "")) == BILLED.(payments := [Asked(0, "")])
  {
    assert BalanceAt(BILLED, PRICED) == Ok(Balance(100, 0, 0));
  }

  lemma AskedAgain()
    ensures Exec(BILLED.(payments := [FAILED]), PayBalance(0, "b")) == BILLED.(payments := [FAILED, Asked(1, "b")])
  {
    var db := BILLED.(payments := [FAILED]);
    AskedAgainIsPayable();
    assert [FAILED][..0] == [] && [FAILED][1..] == [];
    DecisionUnfolds(db, 0, "b", HUNDRED);
    assert FindOpen([FAILED], Final, HUNDRED).None?;
    assert PaymentsOf([FAILED], 0) == [FAILED];
    assert FindByKey([FAILED], "b").None?;
    hide Payable, PaymentsOf, FindOpen, FindByKey, FinalTx;
    assert db.payments + [Asked(1, "b")] == [FAILED, Asked(1, "b")];
  }

  lemma AskedAgainIsPayable()
    ensures Payable(BILLED.(payments := [FAILED]), PRICED) == Ok(100)
  {
    var db := BILLED.(payments := [FAILED]);
    assert [FAILED][..0] == [];
    assert PaymentsOf([FAILED], 0) == [FAILED];
    assert PaidOf(PRICED, [FAILED]) == Ok(0);
    assert BalanceAt(db, PRICED) == Ok(Balance(100, 0, 0));
    hide BalanceAt, PaymentsOf;
  }

  lemma DeclineRevives()
    ensures var end := Exec(BILLED.(payments := [FAILED, Asked(1, "b")]), Observe(0, FAILED, DECLINED, false, 9));
      end.payments == [REVIVED, Asked(1, "b")]
  {
    var both := BILLED.(payments := [FAILED, Asked(1, "b")]);
    var linked := FAILED.(intent := Some(""));
    assert Moved(linked, DECLINED, 9) == REVIVED.(version := 1);
    assert !IntentOfAnother(both, 0, Some(""));
    assert both.payments[0].(id := 0) == FAILED;
    assert both.payments[0 := REVIVED] == [REVIVED, Asked(1, "b")];
  }

  /** Creating an intent seemed to fail, the customer asked again, and then the provider
      reported a decline of the first intent after all: two payments for the balance are open. */
  lemma TwoMayBeOpen()
    ensures exists db: Db :: Reached(db) && ForDue(db, 0, 0, HUNDRED) && ForDue(db, 0, 1, HUNDRED)
  {
    var asked, failed := BILLED.(payments := [Asked(0, "")]), BILLED.(payments := [FAILED]);
    var both := BILLED.(payments := [FAILED, Asked(1, "b")]);
    var end := Exec(both, Observe(0, FAILED, DECLINED, false, 9));
    BillIsPriced();
    AskedOnce();
    AskedFails();
    AskedAgain();
    DeclineRevives();
    hide Exec, Reached;
    ReachedNext(BILLED, PayBalance(0, ""), asked);
    ReachedNext(asked, MarkFailed(0, "", ""), failed);
    ReachedNext(failed, PayBalance(0, "b"), both);
    ReachedNext(both, Observe(0, FAILED, DECLINED, false, 9), end);
    BothAreForDue(end);
  }

  lemma AskedFails()
    ensures Exec(BILLED.(payments := [Asked(0, "")]), MarkFailed(0, "", "")) == BILLED.(payments := [FAILED])
  {
  }

  lemma BothAreForDue(db: Db)
    requires db.payments == [REVIVED, Asked(1, "b")]
    ensures ForDue(db, 0, 0, HUNDRED) && ForDue(db, 0, 1, HUNDRED)
  {
  }
}
