/** scheduler's events in any relative order, any number of times, and over again when a handler failed half way. */
module BookingConvergence {
  import opened Prelude
  import opened Balances
  import opened Settlement
  import opened SettlementRuns
  import opened SettlementOutcomes
  import opened BookingEvents
  import opened BilledWork
  import opened RecordedAnswers
  import SchedulerMoney

  /** An id that is processed now was handled; if it is an ending event's, the appointment ended. */
  ghost predicate KnownIds(db0: Db, db: Db, heard: bool, first: Option<Delivery>) {
    forall topic, eventId :: (topic, eventId) in db.processed && (topic, eventId) !in db0.processed ==>
      heard && (topic == BookedTopic() || first.Some?)
  }

  function RefsAfter(refs: map<int, AppointmentRef>, story: Story, heard: bool, first: Option<Delivery>)
    : map<int, AppointmentRef>
  {
    if heard then refs[story.Appointment() := story.booking.(status := EndStatus(first))] else refs
  }

  /** The same event, delivered when the provider answers about every intent. */
  function Untroubled(d: Delivery, story: Story): Delivery {
    if d.Cancelled? then d.(reached := story.answers.Keys) else d
  }

  /** The first end alone, untroubled, comes through and leaves these tables. */
  ghost predicate LeftBy(db0: Db, db: Db, story: Story, first: Delivery) {
    var alone := Untroubled(first, story);
    Transacted(db0, story, alone).Some? && SameUpToWhen(Deliver(db0, story, alone), db)
  }

  /** What billing stores after deliveries of which some were handled, first the one that ends the appointment. */
  ghost predicate Stands(db0: Db, db: Db, story: Story, first: Option<Delivery>, cancelling: bool) {
    && Good(db)
    && (first.None? ==> Progress(db0, db, story) && (!cancelling ==> SameTables(db0, db)))
    && (first.Some? ==> !first.value.Booked? && LeftBy(db0, db, story, first.value))
    && (first.Some? && first.value.Cancelled? ==> CancelledFrom(db0, db, story) && RestsCancelled(db, story))
    && (first.Some? && first.value.Completed? ==> RestsCompleted(db, story))
  }

  ghost predicate Heard(db0: Db, db: Db, story: Story, heard: bool, first: Option<Delivery>, cancelling: bool) {
    && Stands(db0, db, story, first, cancelling)
    && db.refs == RefsAfter(db0.refs, story, heard, first)
    && KnownIds(db0, db, heard, first)
    && (first.Some? ==> heard)
  }

  /** What these deliveries ask of the state before them. */
  ghost predicate Hears(db0: Db, story: Story, d: Delivery) {
    && Good(db0) && Tells(story) && (d.Topic(), d.eventId) !in db0.processed
    && (story.Appointment() in db0.refs ==> db0.refs[story.Appointment()] == story.booking)
  }

  lemma IdsStayKnown(db0: Db, db: Db, end: Db, heard: bool, first: Option<Delivery>,
                     d: Delivery, first': Option<Delivery>)
    requires KnownIds(db0, db, heard, first)
    requires end.processed == db.processed || end.processed == db.processed + {(d.Topic(), d.eventId)}
    requires (first.Some? ==> first'.Some?) && (!d.Booked? ==> first'.Some?)
    ensures KnownIds(db0, end, true, first')
  {
  }

  /** Tables that did not change still stand. */
  lemma StillStands(db0: Db, db: Db, end: Db, story: Story, first: Option<Delivery>, cancelling: bool)
    requires Stands(db0, db, story, first, cancelling) && SameTables(db, end) && end.outbox == db.outbox
    ensures Stands(db0, end, story, first, cancelling)
  {
    BookkeepingKeepsGood(db, end);
    hide Good, Deliver, Transacted, RowDone, RowUnderway, Quiet, MoneyMoves;
    if first.None? {
      ProgressStays(db0, db, end, story);
    } else {
      EndStays(db0, db, end, story, first.value);
    }
    hide Progress, LeftBy, CancelledFrom, RestsCancelled, RestsCompleted;
  }

  lemma ProgressStays(db0: Db, db: Db, end: Db, story: Story)
    requires Progress(db0, db, story) && SameTables(db, end) && Good(end)
    ensures Progress(db0, end, story)
  {
    hide Good, RowUnderway;
  }

  lemma EndStays(db0: Db, db: Db, end: Db, story: Story, first: Delivery)
    requires SameTables(db, end) && LeftBy(db0, db, story, first)
    ensures LeftBy(db0, end, story, first)
    ensures CancelledFrom(db0, db, story) ==> CancelledFrom(db0, end, story)
    ensures RestsCancelled(db, story) ==> RestsCancelled(end, story)
    ensures RestsCompleted(db, story) ==> RestsCompleted(end, story)
  {
    hide Transacted, Deliver, RowDone, Quiet, MoneyMoves;
  }

  lemma BookedRefs(db0: Db, db: Db, story: Story, heard: bool, first: Option<Delivery>, d: Delivery)
    requires Hears(db0, story, d) && d.Booked? && (first.Some? ==> heard)
    requires db.refs == RefsAfter(db0.refs, story, heard, first) && KnownIds(db0, db, heard, first)
    ensures Deliver(db, story, d).refs == RefsAfter(db0.refs, story, true, first)
  {
    var id, b := story.Appointment(), story.booking;
    assert b.(status := RefBooked) == b;
    if (BookedTopic(), d.eventId) !in db.processed && first.None? && heard {
      assert db.refs[id := b] == db0.refs[id := b];
    }
  }

  lemma HearBooked(db0: Db, db: Db, story: Story, heard: bool, first: Option<Delivery>, cancelling: bool, d: Delivery)
    requires Hears(db0, story, d) && Heard(db0, db, story, heard, first, cancelling) && d.Booked?
    ensures Transacted(db, story, d).Some? && Heard(db0, Deliver(db, story, d), story, true, first, cancelling)
  {
    hide *;
    var end := Deliver(db, story, d);
    HeardIs(db0, db, story, heard, first, cancelling);
    TopicIs(d);
    BookedRefs(db0, db, story, heard, first, d);
    BookedWritesNoTable(db, story, d);
    StillStands(db0, db, end, story, first, cancelling);
    IdsStayKnown(db0, db, end, heard, first, d, first);
    IsHeard(db0, end, story, true, first, cancelling);
  }

  lemma BookedWritesNoTable(db: Db, story: Story, d: Delivery)
    requires d.Booked?
    ensures Transacted(db, story, d).Some?
    ensures var end := Deliver(db, story, d);
      && SameTables(db, end) && end.outbox == db.outbox
      && (end.processed == db.processed || end.processed == db.processed + {(BookedTopic(), d.eventId)})
  {
    hide BookedTopic;
  }

  lemma EndRefs(db0: Db, db: Db, story: Story, heard: bool, first: Option<Delivery>)
    requires Tells(story) && (story.Appointment() in db0.refs ==> db0.refs[story.Appointment()] == story.booking)
    requires db.refs == RefsAfter(db0.refs, story, heard, first)
    ensures RefsCancelled(db, story) == db0.refs[story.Appointment() := story.booking.(status := RefCancelled)]
    ensures RefsCompleted(db, story) == db0.refs[story.Appointment() := story.booking.(status := RefCompleted)]
  {
  }

  /** An ending event after the end: the same kind of end, by the premise. */
  lemma HearEndAgain(db0: Db, db: Db, story: Story, heard: bool, first: Option<Delivery>, cancelling: bool, d: Delivery)
    requires Hears(db0, story, d) && Heard(db0, db, story, heard, first, cancelling) && !d.Booked? && first.Some?
    requires first.value.Cancelled? == d.Cancelled?
    ensures Heard(db0, Deliver(db, story, d), story, true, first, cancelling)
  {
    hide *;
    var end := Deliver(db, story, d);
    HearsGood(db0, story, d);
    HeardIs(db0, db, story, heard, first, cancelling);
    StandsEnded(db0, db, story, first, cancelling);
    TopicIs(d);
    EndRefs(db0, db, story, heard, first);
    EndedRefs(db0, story, first.value);
    TellsOneAppointment(story);
    if d.Cancelled? {
      CancelAgain(db, story, d);
    } else {
      CompleteAgain(db, story, d);
    }
    StillStands(db0, db, end, story, first, cancelling);
    IdsStayKnown(db0, db, end, heard, first, d, first);
    IsHeard(db0, end, story, true, first, cancelling);
  }

  lemma StandsEnded(db0: Db, db: Db, story: Story, first: Option<Delivery>, cancelling: bool)
    requires Stands(db0, db, story, first, cancelling) && first.Some?
    ensures !first.value.Booked?
    ensures first.value.Cancelled? ==> RestsCancelled(db, story)
    ensures first.value.Completed? ==> RestsCompleted(db, story)
  {
  }

  lemma TellsOneAppointment(story: Story)
    requires Tells(story)
    ensures story.completion.appointment == story.Appointment()
  {
  }

  lemma AloneComesThrough(db0: Db, end: Db, story: Story, d: Delivery)
    requires Good(db0) && d.Cancelled? && (CancelledTopic(), d.eventId) !in db0.processed
    requires CancelledFrom(db0, end, story)
    ensures LeftBy(db0, end, story, d)
  {
    hide *;
    var alone := Untroubled(d, story);
    UntroubledIs(d, story);
    AllCanCancel(db0, end, story);
    CancellationComesThroughIff(db0, story, alone);
    NothingIsUnderway(db0, story);
    CancelFirst(db0, db0, story, alone);
    CancelledFromIsUnique(db0, Deliver(db0, story, alone), end, story);
    IsLeftBy(db0, end, story, d);
  }

  lemma UntroubledIs(d: Delivery, story: Story)
    requires d.Cancelled?
    ensures var alone := Untroubled(d, story);
      alone.Cancelled? && alone.eventId == d.eventId && AnswersTo(story, alone.reached) == story.answers
  {
    assert AnswersTo(story, story.answers.Keys) == story.answers;
  }

  lemma AllCanCancel(db0: Db, end: Db, story: Story)
    requires Good(db0) && CancelledFrom(db0, end, story)
    ensures var bill := DepositBill(db0, story);
      bill.Some? ==> forall i :: 0 <= i < |db0.payments| ==>
        CanCancel(db0.payments[i], db0.bills[bill.value], story.answers)
  {
    var bill := DepositBill(db0, story);
    if bill.Some? {
      BillIdFits(db0, bill.value);
      hide Good;
      forall i | 0 <= i < |db0.payments| ensures CanCancel(db0.payments[i], db0.bills[bill.value], story.answers) {
        assert RowDone(db0.payments[i], end.payments[i], db0.bills[bill.value], story.answers);
      }
    }
  }

  lemma IsLeftBy(db0: Db, db: Db, story: Story, d: Delivery)
    requires var alone := Untroubled(d, story);
      Transacted(db0, story, alone).Some? && SameUpToWhen(Deliver(db0, story, alone), db)
    ensures LeftBy(db0, db, story, d)
  {
    hide Transacted, Deliver, SameUpToWhen, Untroubled;
  }

  lemma BillIdFits(db: Db, bill: int)
    requires Good(db) && IsBill(db, bill)
    ensures db.bills[bill].id == bill
  {
  }

  lemma NothingIsUnderway(db: Db, story: Story)
    requires Good(db)
    ensures Progress(db, db, story)
  {
  }

  lemma HearCancelled(db0: Db, db: Db, story: Story, heard: bool, cancelling: bool, d: Delivery)
    requires Hears(db0, story, d) && Heard(db0, db, story, heard, None, cancelling) && d.Cancelled? && cancelling
    ensures var end := Deliver(db, story, d);
      if Transacted(db, story, d).Some? then Heard(db0, end, story, true, Some(d), cancelling)
      else Heard(db0, end, story, heard, None, cancelling)
  {
    hide *;
    HearsGood(db0, story, d);
    HeardIs(db0, db, story, heard, None, cancelling);
    EndIsNew(db0, db, heard, d);
    TopicIs(d);
    StandsInProgress(db0, db, story, cancelling);
    CancelFirst(db0, db, story, d);
    var end := Deliver(db, story, d);
    if Transacted(db, story, d).Some? {
      AloneComesThrough(db0, end, story, d);
      StandsCancelled(db0, end, story, d, cancelling);
      EndRefs(db0, db, story, heard, None);
      EndedRefs(db0, story, d);
      IdsStayKnown(db0, db, end, heard, None, d, Some(d));
      IsHeard(db0, end, story, true, Some(d), cancelling);
    } else {
      StandsUnderway(db0, end, story);
      SameIdsKnown(db0, db, end, heard, None);
      IsHeard(db0, end, story, heard, None, cancelling);
    }
  }

  lemma TopicIs(d: Delivery)
    ensures d.Booked? ==> d.Topic() == BookedTopic()
    ensures d.Cancelled? ==> d.Topic() == CancelledTopic()
    ensures d.Completed? ==> d.Topic() == CompletedTopic()
  {
  }

  lemma HeardIs(db0: Db, db: Db, story: Story, heard: bool, first: Option<Delivery>, cancelling: bool)
    requires Heard(db0, db, story, heard, first, cancelling)
    ensures Stands(db0, db, story, first, cancelling) && db.refs == RefsAfter(db0.refs, story, heard, first)
    ensures KnownIds(db0, db, heard, first) && (first.Some? ==> heard)
  {
  }

  lemma IsHeard(db0: Db, db: Db, story: Story, heard: bool, first: Option<Delivery>, cancelling: bool)
    requires Stands(db0, db, story, first, cancelling) && db.refs == RefsAfter(db0.refs, story, heard, first)
    requires KnownIds(db0, db, heard, first) && (first.Some? ==> heard)
    ensures Heard(db0, db, story, heard, first, cancelling)
  {
  }

  lemma EndedRefs(db0: Db, story: Story, d: Delivery)
    requires !d.Booked?
    ensures var status := if d.Cancelled? then RefCancelled else RefCompleted;
      RefsAfter(db0.refs, story, true, Some(d)) == db0.refs[story.Appointment() := story.booking.(status := status)]
  {
  }

  lemma SameIdsKnown(db0: Db, db: Db, end: Db, heard: bool, first: Option<Delivery>)
    requires KnownIds(db0, db, heard, first) && end.processed == db.processed
    ensures KnownIds(db0, end, heard, first)
  {
  }

  lemma StandsCancelled(db0: Db, db: Db, story: Story, d: Delivery, cancelling: bool)
    requires d.Cancelled? && Good(db) && CancelledFrom(db0, db, story)
    requires RestsCancelled(db, story) && LeftBy(db0, db, story, d)
    ensures Stands(db0, db, story, Some(d), cancelling)
  {
    hide Good, CancelledFrom, RestsCancelled, LeftBy;
  }

  lemma StandsUnderway(db0: Db, db: Db, story: Story)
    requires Progress(db0, db, story)
    ensures Stands(db0, db, story, None, true)
  {
    ProgressIsGood(db0, db, story);
    hide Good, Progress;
  }

  lemma EndIsNew(db0: Db, db: Db, heard: bool, d: Delivery)
    requires KnownIds(db0, db, heard, None) && !d.Booked? && (d.Topic(), d.eventId) !in db0.processed
    ensures (d.Topic(), d.eventId) !in db.processed
  {
  }

  lemma HearsGood(db0: Db, story: Story, d: Delivery)
    requires Hears(db0, story, d)
    ensures Good(db0) && Tells(story) && (d.Topic(), d.eventId) !in db0.processed
    ensures story.Appointment() in db0.refs ==> db0.refs[story.Appointment()] == story.booking
  {
  }

  lemma StandsInProgress(db0: Db, db: Db, story: Story, cancelling: bool)
    requires Stands(db0, db, story, None, cancelling)
    ensures Progress(db0, db, story)
  {
  }

  lemma ProgressIsGood(db0: Db, db: Db, story: Story)
    requires Progress(db0, db, story)
    ensures Good(db)
  {
  }

  lemma HearCompleted(db0: Db, db: Db, story: Story, heard: bool, d: Delivery)
    requires Hears(db0, story, d) && Heard(db0, db, story, heard, None, false) && d.Completed?
    ensures var end := Deliver(db, story, d);
      if Transacted(db, story, d).Some? then Heard(db0, end, story, true, Some(d), false)
      else Heard(db0, end, story, heard, None, false)
  {
    hide *;
    HearsGood(db0, story, d);
    HeardIs(db0, db, story, heard, None, false);
    EndIsNew(db0, db, heard, d);
    TopicIs(d);
    StandsSame(db0, db, story);
    CompleteFirst(db0, db, story, d);
    var end := Deliver(db, story, d);
    if Transacted(db, story, d).Some? {
      SameIsUpToWhen(Deliver(db0, story, d), end);
      LeftByCompletion(db0, end, story, d);
      StandsCompleted(db0, end, story, d);
      EndRefs(db0, db, story, heard, None);
      EndedRefs(db0, story, d);
      IdsStayKnown(db0, db, end, heard, None, d, Some(d));
      IsHeard(db0, end, story, true, Some(d), false);
    }
  }

  lemma StandsSame(db0: Db, db: Db, story: Story)
    requires Stands(db0, db, story, None, false)
    ensures Good(db) && SameTables(db0, db)
  {
  }

  lemma StandsCompleted(db0: Db, db: Db, story: Story, d: Delivery)
    requires d.Completed? && Good(db) && RestsCompleted(db, story) && LeftBy(db0, db, story, d)
    ensures Stands(db0, db, story, Some(d), false)
  {
    hide Good, RestsCompleted, LeftBy;
  }

  lemma SameIsUpToWhen(db: Db, db': Db)
    requires SameTables(db, db')
    ensures SameUpToWhen(db, db')
  {
  }

  lemma LeftByCompletion(db0: Db, db: Db, story: Story, d: Delivery)
    requires d.Completed? && Transacted(db0, story, d).Some? && SameUpToWhen(Deliver(db0, story, d), db)
    ensures LeftBy(db0, db, story, d)
  {
    hide Transacted, Deliver, SameUpToWhen;
  }

  predicate Cancelling(ds: seq<Delivery>) {
    exists i :: 0 <= i < |ds| && ds[i].Cancelled?
  }

  /** The first end is of the kind these deliveries have. */
  lemma {:induction false} FirstEndIsAmong(db: Db, story: Story, ds: seq<Delivery>)
    ensures var first := FirstEnd(db, story, ds);
      first.Some? ==> first.value in ds && !first.value.Booked?
  {
    hide Transacted, DeliverAll;
    if ds != [] {
      FirstEndIsAmong(db, story, ds[..|ds| - 1]);
    }
  }

  lemma HearNext(db0: Db, db: Db, story: Story, heard: bool, first: Option<Delivery>, cancelling: bool, d: Delivery)
    requires Hears(db0, story, d) && Heard(db0, db, story, heard, first, cancelling)
    requires if cancelling then !d.Completed? else !d.Cancelled?
    requires first.Some? && !d.Booked? ==> first.value.Cancelled? == d.Cancelled?
    ensures var done := Transacted(db, story, d).Some?;
      Heard(db0, Deliver(db, story, d), story, heard || done,
            if first.Some? then first else if !d.Booked? && done then Some(d) else None, cancelling)
  {
    if d.Booked? {
      HearBooked(db0, db, story, heard, first, cancelling, d);
    } else if first.Some? {
      HearEndAgain(db0, db, story, heard, first, cancelling, d);
    } else if d.Cancelled? {
      HearCancelled(db0, db, story, heard, cancelling, d);
    } else {
      HearCompleted(db0, db, story, heard, d);
    }
    hide Hears, Deliver, Transacted, Stands, RefsAfter, KnownIds;
  }

  lemma {:induction false} AllHeard(db: Db, story: Story, ds: seq<Delivery>, cancelling: bool)
    requires Good(db) && Tells(story)
    requires story.Appointment() in db.refs ==> db.refs[story.Appointment()] == story.booking
    requires forall i :: 0 <= i < |ds| ==> (ds[i].Topic(), ds[i].eventId) !in db.processed
    requires forall i :: 0 <= i < |ds| ==> if cancelling then !ds[i].Completed? else !ds[i].Cancelled?
    ensures Heard(db, DeliverAll(db, story, ds), story, HeardAny(db, story, ds), FirstEnd(db, story, ds), cancelling)
  {
    hide *;
    if ds == [] {
      NothingIsUnderway(db, story);
      NothingHeard(db, story, cancelling);
    } else {
      var init, d := ds[..|ds| - 1], ds[|ds| - 1];
      assert forall i :: 0 <= i < |init| ==> init[i] == ds[i];
      AllHeard(db, story, init, cancelling);
      FirstEndIsAmong(db, story, init);
      IsHears(db, story, d);
      var heard, first := HeardAny(db, story, init), FirstEnd(db, story, init);
      HearNext(db, DeliverAll(db, story, init), story, heard, first, cancelling, d);
      OneMoreDelivery(db, story, ds);
    }
  }

  lemma NothingHeard(db: Db, story: Story, cancelling: bool)
    requires Good(db) && Progress(db, db, story)
    ensures Heard(db, DeliverAll(db, story, []), story, HeardAny(db, story, []), FirstEnd(db, story, []), cancelling)
  {
    hide Good, Progress;
  }

  lemma IsHears(db0: Db, story: Story, d: Delivery)
    requires Good(db0) && Tells(story) && (d.Topic(), d.eventId) !in db0.processed
    requires story.Appointment() in db0.refs ==> db0.refs[story.Appointment()] == story.booking
    ensures Hears(db0, story, d)
  {
    hide Good, Tells;
  }

  lemma OneMoreDelivery(db: Db, story: Story, ds: seq<Delivery>)
    requires ds != []
    ensures var init, d := ds[..|ds| - 1], ds[|ds| - 1];
      var before, first := DeliverAll(db, story, init), FirstEnd(db, story, init);
      var done := Transacted(before, story, d).Some?;
      && DeliverAll(db, story, ds) == Deliver(before, story, d)
      && HeardAny(db, story, ds) == (HeardAny(db, story, init) || done)
      && FirstEnd(db, story, ds) == if first.Some? then first else if !d.Booked? && done then Some(d) else None
  {
    hide Deliver, Transacted;
  }

  /** However a booking's events are ordered, repeated, and retried after handlers that
      threw half way: billing's copy of the booking ends as the booking with the status of
      the first end that came through, and its bills and payments as that end alone would
      have left them had nothing gone wrong, but for when the money came. */
  lemma DeliveriesConverge(db: Db, story: Story, ds: seq<Delivery>)
    requires Unheard(db, story, ds)
    ensures var end := DeliverAll(db, story, ds); var first := FirstEnd(db, story, ds);
      && end.refs == RefsAfter(db.refs, story, HeardAny(db, story, ds), first)
      && (if first.Some? then LeftBy(db, end, story, first.value) else end.bills == db.bills)
  {
    AllHeard(db, story, ds, Cancelling(ds));
    hide Good, Deliver, Transacted, LeftBy, RefsAfter, Progress, CancelledFrom, RestsCancelled, RestsCompleted,
         KnownIds, DeliverAll, HeardAny, FirstEnd;
    if FirstEnd(db, story, ds).None? {
      StandingBills(db, DeliverAll(db, story, ds), story, FirstEnd(db, story, ds), Cancelling(ds));
    }
  }

  lemma StandingBills(db0: Db, db: Db, story: Story, first: Option<Delivery>, cancelling: bool)
    requires Stands(db0, db, story, first, cancelling) && first.None?
    ensures db.bills == db0.bills
  {
  }

  /** This holds from every state that billing's transactions can reach. */
  lemma EveryDeliveryOrderConverges(history: seq<Action>, story: Story, ds: seq<Delivery>)
    requires NotHeardOf(Run(EMPTY, history), story, ds)
    ensures var db := Run(EMPTY, history); var end := DeliverAll(db, story, ds); var first := FirstEnd(db, story, ds);
      && end.refs == RefsAfter(db.refs, story, HeardAny(db, story, ds), first)
      && (if first.Some? then LeftBy(db, end, story, first.value) else end.bills == db.bills)
  {
    EmptyIsGood();
    RunKeepsGood(EMPTY, history);
    hide Good, LeftBy, NotHeardOf, RefsAfter;
    DeliveriesConverge(Run(EMPTY, history), story, ds);
  }

  /** The same end, but for the event's id and, for a cancellation, when and with which answers it came through. */
  predicate SameEnd(one: Delivery, other: Delivery) {
    || (one.Cancelled? && other.Cancelled?)
    || (one.Completed? && other.Completed? && one == other)
  }

  /** So two lists of deliveries with the same end agree on everything stored, but for when the money came. */
  lemma DeliveryOrdersAgree(db: Db, story: Story, one: seq<Delivery>, other: seq<Delivery>)
    requires Unheard(db, story, one) && Unheard(db, story, other)
    requires FirstEnd(db, story, one).Some? && FirstEnd(db, story, other).Some?
    requires SameEnd(FirstEnd(db, story, one).value, FirstEnd(db, story, other).value)
    ensures DeliverAll(db, story, one).refs == DeliverAll(db, story, other).refs
    ensures SameUpToWhen(DeliverAll(db, story, one), DeliverAll(db, story, other))
  {
    hide *;
    var a, b := FirstEnd(db, story, one), FirstEnd(db, story, other);
    var end, end' := DeliverAll(db, story, one), DeliverAll(db, story, other);
    HearingEnds(db, story, one);
    HearingEnds(db, story, other);
    SameEndMeans(db, story, a.value, b.value);
    if a.value.Cancelled? {
      CancelledFromIsUnique(db, end, end', story);
    } else {
      LeftByMeans(db, end, story, a.value);
      LeftByMeans(db, end', story, b.value);
      SameUpToWhenChains(Deliver(db, story, a.value), end, end');
    }
  }

  lemma HearingEnds(db: Db, story: Story, ds: seq<Delivery>)
    requires Unheard(db, story, ds) && FirstEnd(db, story, ds).Some?
    ensures var end := DeliverAll(db, story, ds); var first := FirstEnd(db, story, ds);
      && end.refs == RefsAfter(db.refs, story, true, first)
      && LeftBy(db, end, story, first.value)
      && (first.value.Cancelled? ==> CancelledFrom(db, end, story))
  {
    AllHeard(db, story, ds, Cancelling(ds));
    hide Good, Deliver, Transacted, LeftBy, RefsAfter, Progress, CancelledFrom, RestsCancelled, RestsCompleted,
         KnownIds, DeliverAll, HeardAny, FirstEnd, NotHeardOf;
  }

  lemma SameEndMeans(db: Db, story: Story, one: Delivery, other: Delivery)
    requires SameEnd(one, other)
    ensures one.Cancelled? == other.Cancelled? && !one.Booked?
    ensures !one.Cancelled? ==> one == other
    ensures RefsAfter(db.refs, story, true, Some(one)) == RefsAfter(db.refs, story, true, Some(other))
  {
  }

  lemma LeftByMeans(db0: Db, db: Db, story: Story, d: Delivery)
    requires LeftBy(db0, db, story, d) && !d.Cancelled?
    ensures SameUpToWhen(Deliver(db0, story, d), db)
  {
    hide Deliver, Transacted, SameUpToWhen;
  }

  lemma SameUpToWhenChains(db: Db, one: Db, other: Db)
    requires SameUpToWhen(db, one) && SameUpToWhen(db, other)
    ensures SameUpToWhen(one, other)
  {
  }

  /** A cancellation comes through exactly if the provider answers about every intent of the deposits
      that is still open, and none of them succeeded in another currency than the bill's. */
  lemma CancellationComesThroughIff(db: Db, story: Story, d: Delivery)
    requires Good(db) && d.Cancelled? && (CancelledTopic(), d.eventId) !in db.processed
    ensures var bill := DepositBill(db, story);
      Transacted(db, story, d).Some? <==>
        bill.Some? ==> forall i :: 0 <= i < |db.payments| ==>
          CanCancel(db.payments[i], db.bills[bill.value], AnswersTo(story, d.reached))
  {
    hide *;
    var answers := AnswersTo(story, d.reached);
    CancelUnfolds(db, story, d);
    NothingIsUnderway(db, story);
    AnswersToAreAnswers(story, d.reached);
    PassMakesProgress(db, db, story, answers, d.now);
    DepositBillIs(db, story);
    BeforeCancelIs(db, story, answers, d.now);
    var pass := BeforeCancel(db, story, answers, d.now);
    if DepositBill(db, story).Some? {
      PassComesThroughIff(db, DepositBill(db, story).value, |db.payments|, answers, d.now);
    }
    if pass.ok {
      VoidingComesThrough(db, db, pass, story, d.eventId);
    }
  }

  /** p waits for its customer, with an intent at the provider, on bill b. */
  predicate Waits(p: Payment, b: int) {
    p.billId == b && p.status == RequiresPayment && p.intent.Some?
  }

  /** q is p as the provider's answer leaves it. */
  predicate Follows(p: Payment, q: Payment, answer: Intent) {
    && q.id == p.id && q.billId == p.billId && q.kind == p.kind && q.amount == p.amount && q.intent == p.intent
    && match answer.status
       case IntentSucceeded => q.status == Succeeded
       case IntentProcessing => q.status == Processing
       case IntentCanceled => q.status == Canceled
       case _ => q.status == RequiresPayment
  }

  /** A cancellation of an appointment with OPEN bill b comes through exactly if the provider answers about every
      payment that waits, and none of them took foreign money; every one of those follows its answer, the other
      payments and bills stay, and the bill is VOID exactly if no money came for it. */
  lemma CancellationClosesTheBill(db: Db, story: Story, d: Delivery, b: int)
    requires Good(db) && d.Cancelled? && (CancelledTopic(), d.eventId) !in db.processed
    requires 0 <= b < |db.bills| && db.bills[b].appointment == story.Appointment() && db.bills[b].status == Open
    ensures Transacted(db, story, d).Some? <==>
      forall i :: 0 <= i < |db.payments| && Waits(db.payments[i], b) ==>
        && db.payments[i].intent.value in story.answers && db.payments[i].intent.value in d.reached
        && (story.answers[db.payments[i].intent.value].status == IntentSucceeded ==>
             db.payments[i].amount.currency == db.bills[b].currency)
    ensures Transacted(db, story, d).Some? ==>
      && var end := Deliver(db, story, d);
      && |end.payments| == |db.payments|
      && (forall i :: 0 <= i < |db.payments| ==>
           if Waits(db.payments[i], b)
           then Follows(db.payments[i], end.payments[i], story.answers[db.payments[i].intent.value])
           else end.payments[i] == db.payments[i])
      && end.bills == db.bills[b := if exists i :: 0 <= i < |end.payments| && Counts(end.payments[i], b)
                                    then db.bills[b] else db.bills[b].(status := Void)]
  {
    LiveBillIs(db, story.Appointment(), b);
    hide *;
    TheDepositBill(db, story, b);
    CancellationComesThroughIff(db, story, d);
    CanCancelAll(db, story, d, b);
    NothingIsUnderway(db, story);
    CancelFirst(db, db, story, d);
    if Transacted(db, story, d).Some? {
      CancelledFromMeans(db, Deliver(db, story, d), story, b);
    }
  }

  lemma LiveBillIs(db: Db, appointment: int, b: int)
    requires Good(db) && 0 <= b < |db.bills| && db.bills[b].appointment == appointment && db.bills[b].status == Open
    ensures LiveBill(db.bills, appointment) == Some(b) && db.bills[b].id == b
  {
    LiveBillFinds(db.bills, appointment);
    GoodIsUnique(db);
    hide Good, LiveBill;
  }

  lemma TheDepositBill(db: Db, story: Story, b: int)
    requires 0 <= b < |db.bills| && LiveBill(db.bills, story.Appointment()) == Some(b) && db.bills[b].status == Open
    ensures DepositBill(db, story) == Some(b)
  {
  }

  lemma CanCancelAll(db: Db, story: Story, d: Delivery, b: int)
    requires d.Cancelled? && 0 <= b < |db.bills| && db.bills[b].id == b
    ensures (forall i :: 0 <= i < |db.payments| ==>
              CanCancel(db.payments[i], db.bills[b], AnswersTo(story, d.reached)))
       <==> forall i :: 0 <= i < |db.payments| && Waits(db.payments[i], b) ==>
              && db.payments[i].intent.value in story.answers && db.payments[i].intent.value in d.reached
              && (story.answers[db.payments[i].intent.value].status == IntentSucceeded ==>
                   db.payments[i].amount.currency == db.bills[b].currency)
  {
    forall i | 0 <= i < |db.payments|
      ensures CanCancel(db.payments[i], db.bills[b], AnswersTo(story, d.reached)) <==>
        (Waits(db.payments[i], b) ==>
          && db.payments[i].intent.value in story.answers && db.payments[i].intent.value in d.reached
          && (story.answers[db.payments[i].intent.value].status == IntentSucceeded ==>
               db.payments[i].amount.currency == db.bills[b].currency))
    {
    }
    hide CanCancel, Waits, AnswersTo;
  }

  lemma CancelledFromMeans(db: Db, end: Db, story: Story, b: int)
    requires CancelledFrom(db, end, story) && DepositBill(db, story) == Some(b) && IsBill(db, b)
    requires db.bills[b].id == b && 0 <= b < |db.bills|
    ensures |end.payments| == |db.payments|
    ensures forall i :: 0 <= i < |db.payments| && Waits(db.payments[i], b) ==>
      db.payments[i].intent.value in story.answers
    ensures forall i :: 0 <= i < |db.payments| ==>
      if Waits(db.payments[i], b)
      then Follows(db.payments[i], end.payments[i], story.answers[db.payments[i].intent.value])
      else end.payments[i] == db.payments[i]
    ensures end.bills == db.bills[b := if exists i :: 0 <= i < |end.payments| && Counts(end.payments[i], b)
                                       then db.bills[b] else db.bills[b].(status := Void)]
  {
    forall i | 0 <= i < |db.payments|
      ensures Waits(db.payments[i], b) ==> db.payments[i].intent.value in story.answers
      ensures if Waits(db.payments[i], b)
              then Follows(db.payments[i], end.payments[i], story.answers[db.payments[i].intent.value])
              else end.payments[i] == db.payments[i]
    {
      DoneFollows(db.payments[i], end.payments[i], db.bills[b], story.answers);
    }
    MoneyMovesIff(end.payments, b);
    assert MoneyMoves(PaymentsOf(end.payments, b))
      <==> exists i :: 0 <= i < |end.payments| && Counts(end.payments[i], b);
    hide PaymentsOf, RowDone, DepositBill;
    assert db.bills[b := db.bills[b]] == db.bills;
  }

  lemma DoneFollows(p: Payment, q: Payment, bill: Bill, answers: map<string, Intent>)
    requires RowDone(p, q, bill, answers)
    ensures Waits(p, bill.id) ==>
      p.intent.value in answers && Follows(p, q, answers[p.intent.value])
    ensures !Waits(p, bill.id) ==> q == p
  {
    if Waits(p, bill.id) {
      var t := Fate(p, answers[p.intent.value], 0);
      assert Timeless(q) == Timeless(t);
      assert q.status == t.status && q.id == t.id && q.billId == t.billId && q.kind == t.kind
        && q.amount == t.amount && q.intent == t.intent;
    }
  }

  /** A completion of an appointment with OPEN bill b comes through exactly if vehicle-service answers about the
      warranty and the bill can take the lines in its currency; it charges the fee exactly if the vehicle is not
      covered. */
  lemma CompletionChargesTheBill(db: Db, story: Story, d: Delivery, b: int)
    requires Good(db) && d.Completed? && (CompletedTopic(), d.eventId) !in db.processed
    requires story.completion.appointment == story.Appointment()
    requires 0 <= b < |db.bills| && db.bills[b].appointment == story.Appointment() && db.bills[b].status == Open
    ensures Transacted(db, story, d).Some? <==>
      && d.warranty.Some? && EstimateOf(story.completion.services) >= 0
      && db.bills[b].currency == story.completion.currency && Billable(story.completion)
    ensures Transacted(db, story, d).Some? ==>
      BilledAs(db, Deliver(db, story, d), b, story.completion,
               if d.warranty.value || d.fee <= 0 then 0 else d.fee, d.now)
  {
    LiveBillIs(db, story.Appointment(), b);
    if d.warranty.Some? {
      var known := KnownRef(db.refs, story.Appointment());
      CompletedDeliveryIs(db, story, d);
      hide Good, CompletedTx, Transacted, Deliver, BilledAs, LiveBill, CompletedTopic, EstimateOf, Billable;
      CompletionCommitsIff(db, CompletedTopic(), d.eventId, story.completion, d.warranty.value, d.fee, known, Some(b),
                           d.now);
      if Transacted(db, story, d).Some? {
        CompletionWrites(db, CompletedTopic(), d.eventId, story.completion, d.warranty.value, d.fee, known, Some(b),
                         d.now);
      }
    }
  }

  lemma CompletedDeliveryIs(db: Db, story: Story, d: Delivery)
    requires d.Completed? && d.warranty.Some?
    ensures var known, live := KnownRef(db.refs, story.Appointment()), LiveBill(db.bills, story.Appointment());
      var r := CompletedTx(db, CompletedTopic(), d.eventId, story.completion, d.warranty.value, d.fee, known, live,
                           d.now);
      && Transacted(db, story, d) == (if r.Ok? then Some(r.value) else None)
      && Deliver(db, story, d) == (if r.Ok? then r.value else db)
  {
    hide CompletedTx, LiveBill, CompletedTopic;
  }

  /** What a cancellation tells: of money that came after all, never of a decline. */
  lemma {:induction false} CancellationsTellNoDecline(db: Db, bill: int, n: nat, answers: map<string, Intent>, now: int)
    requires Good(db) && n <= |db.payments|
    ensures var end := CancelIntents(db, bill, n, answers, now).db;
      && Good(end) && |end.payments| == |db.payments| && |db.outbox| <= |end.outbox|
      && end.outbox[..|db.outbox|] == db.outbox
      && forall i :: |db.outbox| <= i < |end.outbox| ==> end.outbox[i].PaymentReceived?
  {
    hide Good, CancelIntent;
    if n > 0 {
      CancellationsTellNoDecline(db, bill, n - 1, answers, now);
      var before := CancelIntents(db, bill, n - 1, answers, now);
      if before.ok {
        OneTellsNoDecline(before.db, bill, n - 1, answers, now);
      }
    }
  }

  lemma OneTellsNoDecline(db: Db, bill: int, i: nat, answers: map<string, Intent>, now: int)
    requires Good(db) && i < |db.payments|
    ensures var end := CancelIntent(db, bill, i, answers, now).db;
      && Good(end) && |end.payments| == |db.payments|
      && (end.outbox == db.outbox
          || exists e: Event :: e.PaymentReceived? && end.outbox == db.outbox + [e])
  {
    var end := CancelIntent(db, bill, i, answers, now).db;
    if end != db {
      var p := db.payments[i];
      var a := answers[p.intent.value];
      ApplyKeepsGood(db, i, p, a, false, now);
      AnswerWrites(db, i, p, a, false, now);
      hide ApplyTx, Good;
      assert db.outbox + [] == db.outbox;
    }
  }

  lemma DepositBillIs(db: Db, story: Story)
    ensures var bill := DepositBill(db, story);
      bill.Some? ==> IsBill(db, bill.value) && db.bills[bill.value].status == Open
  {
  }

  lemma BeforeCancelIs(db: Db, story: Story, answers: map<string, Intent>, now: int)
    ensures var bill := DepositBill(db, story);
      BeforeCancel(db, story, answers, now)
      == if bill.Some? then CancelIntents(db, bill.value, |db.payments|, answers, now) else Pass(db, true)
  {
  }

  // --- The premise about the estimate ---------------------------------------------------------------

  /** The estimate survives reordering exactly if the completion's lines add up to it. */
  lemma EstimatesAgreeIff(db: Db, story: Story, booked: Delivery, completed: Delivery)
    requires story.Appointment() !in db.refs && story.booking.status == RefBooked
    requires story.completion.appointment == story.Appointment()
    requires booked.Booked? && completed.Completed?
    requires (BookedTopic(), booked.eventId) !in db.processed && (CompletedTopic(), completed.eventId) !in db.processed
    requires Transacted(db, story, completed).Some? && Transacted(Deliver(db, story, booked), story, completed).Some?
    ensures var c := story.completion; var id := story.Appointment();
      var bookedFirst := Deliver(Deliver(db, story, booked), story, completed);
      var completedFirst := Deliver(Deliver(db, story, completed), story, booked);
      && id in bookedFirst.refs && id in completedFirst.refs
      && (bookedFirst.refs[id].estimate == completedFirst.refs[id].estimate
          <==> story.booking.estimate == Money(EstimateOf(c.services), c.currency))
  {
    var after, done := Deliver(db, story, booked), Deliver(db, story, completed);
    BookedThen(db, story, booked);
    assert (CompletedTopic(), completed.eventId) !in after.processed;
    CompletedNotes(db, story, completed);
    CompletedNotes(after, story, completed);
    hide Transacted, CompletedTopic, BookedTopic, EstimateOf;
    BookedThen(done, story, booked);
  }

  lemma BookedThen(db: Db, story: Story, d: Delivery)
    requires d.Booked?
    ensures var end := Deliver(db, story, d); var id := story.Appointment();
      && (end.processed == db.processed || end.processed == db.processed + {(BookedTopic(), d.eventId)})
      && (id in db.refs && db.refs[id].status != RefBooked ==> end.refs == db.refs)
      && (id !in db.refs && (BookedTopic(), d.eventId) !in db.processed ==> end.refs == db.refs[id := story.booking])
    ensures var end := Deliver(db, story, d);
      forall e :: (CompletedTopic(), e) in end.processed ==> (CompletedTopic(), e) in db.processed
  {
  }

  lemma CompletedNotes(db: Db, story: Story, d: Delivery)
    requires d.Completed? && Transacted(db, story, d).Some? && (CompletedTopic(), d.eventId) !in db.processed
    requires story.completion.appointment == story.Appointment()
    ensures Deliver(db, story, d).refs == RefsCompleted(db, story)
  {
    CompletedUnfolds(db, story, d);
    var at, c := ToPrice(db, story, d.eventId), story.completion;
    PricingShape(at.db, at.row, c, d.warranty.value, d.fee, d.now);
    hide PriceCompleted, Transacted, EstimateOf;
  }

  function AsServices(lines: seq<SchedulerMoney.CompletedLine>): seq<CompletedService> {
    seq(|lines|, i requires 0 <= i < |lines| =>
      CompletedService(lines[i].name, lines[i].quantity, lines[i].unitPriceMinor))
  }

  lemma {:induction false} EstimateIsLinesTotal(lines: seq<SchedulerMoney.CompletedLine>)
    ensures EstimateOf(AsServices(lines)) == SchedulerMoney.LinesTotal(lines)
  {
    if lines != [] {
      EstimateIsLinesTotal(lines[..|lines| - 1]);
      assert AsServices(lines)[..|lines| - 1] == AsServices(lines[..|lines| - 1]);
    }
  }

  /** It does add up: at the catalog's fees, the lines scheduler publishes are what billing reads
      from the two decimals of the booked total. */
  lemma PublishedLinesAddUpToTheEstimate(services: seq<SchedulerMoney.BookedService>,
                                         lines: seq<SchedulerMoney.CompletedLine>, currency: string)
    requires forall i :: 0 <= i < |services| ==> SchedulerMoney.CatalogFee(services[i].fee)
    requires |services| <= 10 && SchedulerMoney.IsCompletionOf(lines, services, currency)
    ensures SchedulerMoney.OfMajor(SchedulerMoney.FixedTwo(SchedulerMoney.Total(services)), currency)
         == Ok(EstimateOf(AsServices(lines)))
  {
    SchedulerMoney.CatalogMoneyIsConserved(services, lines, currency);
    EstimateIsLinesTotal(lines);
  }
}
