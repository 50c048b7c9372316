/** What handlers of one booking's events that run at the same time can do to billing's copy of it.

    The copy is read by a plain select and written by a blind upsert, so a handler
    decides on what it read, whatever is stored by the time it writes. */
module BookedAgain {
  import opened Prelude
  import opened Balances
  import opened Settlement
  import opened BookingEvents

  /** a writes a BOOKED copy of the booking: a deposit's blind copy, or an AppointmentBooked whose
      handler had read no copy, or a BOOKED one. */
  predicate WritesBooked(db: Db, a: Action, id: int) {
    || (a.CopyBooking? && a.booking.appointment == id && a.booking.status == RefBooked)
    || (a.BookedEvent? && a.booking.appointment == id && a.booking.status == RefBooked
        && (a.source, a.eventId) !in db.processed && (a.known.None? || a.known.value.status == RefBooked))
  }

  /** An ended booking goes back to BOOKED by exactly these transactions. */
  lemma BackToBookedIff(db: Db, a: Action, id: int)
    requires id in db.refs && db.refs[id].status != RefBooked
    ensures id in Exec(db, a).refs
    ensures Exec(db, a).refs[id].status == RefBooked <==> WritesBooked(db, a, id)
  {
    if Transaction(db, a).Ok? {
      match a
      case Observe(payment, found, intent, notify, now) => ApplyKeepsBooks(db, payment, found, intent, notify, now);
      case Webhook(eventId, intent, found, now) => WebhookKeepsRefs(db, eventId, intent, found, now);
      case CompletedEvent(source, eventId, c, inWarranty, fee, known, seen, now) =>
        CompletedWritesRef(db, source, eventId, c, inWarranty, fee, known, seen, now);
      case CancelledEvent(source, eventId, booking, known, seen) =>
        CancelledWritesRef(db, source, eventId, booking, known, seen);
      case _ =>
    }
  }

  lemma WebhookKeepsRefs(db: Db, eventId: string, intent: Intent, found: Payment, now: int)
    requires WebhookTx(db, eventId, intent, found, now).Ok?
    ensures WebhookTx(db, eventId, intent, found, now).value.refs == db.refs
  {
    var payment := PaymentOfIntent(db, intent);
    if (STRIPE, eventId) !in db.processed && payment.Some? {
      ApplyKeepsBooks(db.(processed := db.processed + {(STRIPE, eventId)}), payment.value, found, intent, true, now);
    }
    hide ApplyTx, PaymentOfIntent;
  }

  lemma CompletedWritesRef(db: Db, source: string, eventId: string, c: Completion, inWarranty: bool, fee: int,
                           known: Option<AppointmentRef>, seen: Option<int>, now: int)
    requires CompletedTx(db, source, eventId, c, inWarranty, fee, known, seen, now).Ok?
    ensures var end := CompletedTx(db, source, eventId, c, inWarranty, fee, known, seen, now).value;
      end.refs == db.refs || end.refs == NoteCompleted(db, source, eventId, c, known).refs
  {
    hide BalanceAt, EstimateOf, PricedLines, Price;
  }

  lemma CancelledWritesRef(db: Db, source: string, eventId: string, booking: AppointmentRef,
                           known: Option<AppointmentRef>, seen: Option<int>)
    requires CancelledTx(db, source, eventId, booking, known, seen).Ok?
    ensures var end := CancelledTx(db, source, eventId, booking, known, seen).value;
      var ref := if known.Some? then known.value else booking;
      end.refs == db.refs || end.refs == db.refs[booking.appointment := ref.(status := RefCancelled)]
  {
    hide PaymentsOf;
  }

  /** In a run in which nothing writes a BOOKED copy, an ended booking stays ended. */
  lemma {:induction false} EndedBookingsStayEnded(db: Db, actions: seq<Action>, id: int)
    requires id in db.refs && db.refs[id].status != RefBooked
    ensures var end := Run(db, actions).refs;
      id in end && (end[id].status == RefBooked ==> BookedWasWritten(db, actions, id))
    decreases |actions|
  {
    if actions != [] {
      BackToBookedIff(db, actions[0], id);
      hide Exec, WritesBooked;
      var next := Exec(db, actions[0]);
      if next.refs[id].status != RefBooked {
        EndedBookingsStayEnded(next, actions[1..], id);
      } else {
        BookingsStayKnown(next, actions[1..], id);
      }
    }
  }

  /** Some step of the run writes a BOOKED copy. */
  predicate BookedWasWritten(db: Db, actions: seq<Action>, id: int)
    decreases |actions|
  {
    actions != [] && (WritesBooked(db, actions[0], id) || BookedWasWritten(Exec(db, actions[0]), actions[1..], id))
  }

  lemma {:induction false} BookingsStayKnown(db: Db, actions: seq<Action>, id: int)
    requires id in db.refs
    ensures id in Run(db, actions).refs
    decreases |actions|
  {
    if actions != [] {
      ExecKeepsKnown(db, actions[0], id);
      hide Exec;
      BookingsStayKnown(Exec(db, actions[0]), actions[1..], id);
    }
  }

  lemma ExecKeepsKnown(db: Db, a: Action, id: int)
    requires id in db.refs
    ensures id in Exec(db, a).refs
  {
    if Transaction(db, a).Ok? {
      match a
      case Observe(payment, found, intent, notify, now) => ApplyKeepsBooks(db, payment, found, intent, notify, now);
      case Webhook(eventId, intent, found, now) => WebhookKeepsRefs(db, eventId, intent, found, now);
      case CompletedEvent(source, eventId, c, inWarranty, fee, known, seen, now) =>
        CompletedWritesRef(db, source, eventId, c, inWarranty, fee, known, seen, now);
      case CancelledEvent(source, eventId, booking, known, seen) =>
        CancelledWritesRef(db, source, eventId, booking, known, seen);
      case _ =>
    }
  }

  /** If every handler of this booking read the copy that is stored, and no deposit copied the
      booking again, an ended booking stays ended and only its status can still change. */
  lemma {:induction false} FreshHandlersKeepTheEnd(db: Db, actions: seq<Action>, id: int)
    requires id in db.refs && db.refs[id].status != RefBooked && ReadsFresh(db, actions, id)
    ensures var end := Run(db, actions).refs;
      id in end && end[id].status != RefBooked && end[id] == db.refs[id].(status := end[id].status)
    decreases |actions|
  {
    if actions != [] {
      FreshKeepsEnd(db, actions[0], id);
      hide Exec, ReadsStored;
      FreshHandlersKeepTheEnd(Exec(db, actions[0]), actions[1..], id);
    }
  }

  predicate ReadsStored(db: Db, a: Action, id: int) {
    && (a.CopyBooking? ==> a.booking.appointment != id)
    && (a.BookedEvent? && a.booking.appointment == id ==> a.known == KnownRef(db.refs, id))
    && (a.CancelledEvent? && a.booking.appointment == id ==> a.known == KnownRef(db.refs, id))
    && (a.CompletedEvent? && a.completion.appointment == id ==> a.known == KnownRef(db.refs, id))
  }

  predicate ReadsFresh(db: Db, actions: seq<Action>, id: int)
    decreases |actions|
  {
    actions == [] || (ReadsStored(db, actions[0], id) && ReadsFresh(Exec(db, actions[0]), actions[1..], id))
  }

  lemma FreshKeepsEnd(db: Db, a: Action, id: int)
    requires id in db.refs && db.refs[id].status != RefBooked && ReadsStored(db, a, id)
    ensures var end := Exec(db, a).refs;
      id in end && end[id].status != RefBooked && end[id] == db.refs[id].(status := end[id].status)
  {
    if Transaction(db, a).Ok? {
      match a
      case Observe(payment, found, intent, notify, now) => ApplyKeepsBooks(db, payment, found, intent, notify, now);
      case Webhook(eventId, intent, found, now) => WebhookKeepsRefs(db, eventId, intent, found, now);
      case CompletedEvent(source, eventId, c, inWarranty, fee, known, seen, now) =>
        CompletedWritesRef(db, source, eventId, c, inWarranty, fee, known, seen, now);
      case CancelledEvent(source, eventId, booking, known, seen) =>
        CancelledWritesRef(db, source, eventId, booking, known, seen);
      case _ =>
    }
  }

  const VISIT := AppointmentRef(1, 1, 1, 1, Money(0, ""), RefBooked)

  /** Concurrent handlers can take an ended booking back: AppointmentBooked's reads that nothing is
      stored, AppointmentCancelled's stores the end, and then the first one stores what it decided. */
  lemma ConcurrentHandlersGoBack()
    ensures var cancel, book := CancelledEvent("c", "", VISIT, None, None), BookedEvent("b", "", VISIT, None);
      && Exec(EMPTY, cancel).refs == map[1 := VISIT.(status := RefCancelled)]
      && Run(EMPTY, [cancel, book]).refs == map[1 := VISIT]
      && Run(EMPTY, [book, CancelledEvent("c", "", VISIT, Some(VISIT), None)]).refs
         == map[1 := VISIT.(status := RefCancelled)]
  {
    var cancel, book := CancelledEvent("c", "", VISIT, None, None), BookedEvent("b", "", VISIT, None);
    assert [cancel, book][1..] == [book] && [book][1..] == [];
    var after := CancelledEvent("c", "", VISIT, Some(VISIT), None);
    assert [book, after][1..] == [after] && [after][1..] == [];
    assert Run(Exec(EMPTY, cancel), [book]) == Exec(Exec(EMPTY, cancel), book);
    assert Run(Exec(EMPTY, book), [after]) == Exec(Exec(EMPTY, book), after);
  }
}
