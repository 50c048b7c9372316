/** What a caller of the booking service is answered, and why. */
module BookingAnswers {
  import opened Prelude
  import opened SchedulerMoney
  import opened AppointmentTables
  import opened BookingService
  import Catalog

  // --- Book ---------------------------------------------------------------------------

  /** Every requested id is in the active catalog, and there is one. */
  ghost predicate KnownServices(snapshot: Snapshot, ids: seq<int>) {
    ids != [] && forall id :: id in ids ==> exists svc :: svc in snapshot.services && svc.id == id
  }

  /** The checks before the transaction, in their order: each fails for its own reason. services are the requested
      ones where all are known. */
  lemma BookRefuses(snapshot: Snapshot, req: Request, now: int, caller: Caller, services: seq<Catalog.CatalogService>)
    requires snapshot.Valid() && (KnownServices(snapshot, req.serviceIds) ==>
                                   Requested(snapshot, req.serviceIds, services))
    ensures var r := Checked(snapshot, req, now, caller);
      if req.hub !in snapshot.hubs then r == Err(HubNotFound)
      else if !KnownServices(snapshot, req.serviceIds) then r == Err(InvalidServices)
      else if req.start <= now then r == Err(NotInTheFuture)
      else if !InOpeningHours(snapshot.hubs[req.hub], req.start, req.start + Duration(services))
      then r == Err(OutsideOpeningHours)
      else if caller.customer.None? then r == Err(CallerUnknown)
      else if caller.vehicles.None? then r == Err(VehiclesUnknown)
      else if req.vehicle !in caller.vehicles.value then r == Err(NotYourVehicle)
      else r.Ok?
  {
    hide *;
    ResolvesIfKnown(snapshot, req.serviceIds);
    RequestedIsResolved(snapshot, req.serviceIds);
    if req.hub in snapshot.hubs && KnownServices(snapshot, req.serviceIds) {
      ChecksInOrder(snapshot, req, now, caller, services);
    } else {
      NothingToCheck(snapshot, req, now, caller);
    }
  }

  lemma ResolvesIfKnown(snapshot: Snapshot, ids: seq<int>)
    ensures Catalog.Resolve(snapshot.services, ids).Some? <==> KnownServices(snapshot, ids)
  {
    var kept := Catalog.FirstOccurrences(ids);
    Catalog.FirstOccurrencesKeepsEachOnce(ids);
    forall id ensures id in Catalog.Ids(snapshot.services) <==> exists svc :: svc in snapshot.services && svc.id == id {
      if svc :| svc in snapshot.services && svc.id == id {
        var i :| 0 <= i < |snapshot.services| && snapshot.services[i] == svc;
      }
    }
    if forall i :: 0 <= i < |kept| ==> kept[i] in Catalog.Ids(snapshot.services) {
      forall id | id in ids ensures id in Catalog.Ids(snapshot.services) {
        assert id in kept;
      }
    } else {
      var i :| 0 <= i < |kept| && kept[i] !in Catalog.Ids(snapshot.services);
      assert kept[i] in kept && kept[i] in ids;
    }
    hide Catalog.Ids;
  }

  /** In the transaction a busy vehicle is found first, then a full hub. */
  lemma BookIsTurnedAway(snapshot: Snapshot, t: Tables, id: int, b: Booking)
    ensures var r := BookTx(snapshot.bays, t, id, b);
      if !Idle(t, b.vehicle, b.start, b.end) then r == Err(VehicleHasBooking)
      else if !CanTakeSome(snapshot, t, b.hub, b.start, b.end) then r == Err(NoBayFree)
      else r.Ok?
  {
    IdleIsNotBusy(t, b.vehicle, b.start, b.end);
    CanTakeIsFreeBay(snapshot, t, b.hub, b.start, b.end);
    hide Idle, VehicleBusy, FreeBay, CanTakeSome, CommitBooking;
  }

  // --- Cancel and Complete --------------------------------------------------------------

  /** A cancellation is refused for the first of these reasons; otherwise it cancels the appointment with its bay
      and its lines, leaves everything else alone, and tells of it once. */
  lemma CancelAnswers(t: Tables, id: int, now: int, caller: Caller)
    ensures var r := CancelTx(t, id, now, caller);
      if caller.customer.None? then r == Err(CallerUnknown)
      else if id !in t.appointments || t.appointments[id].customer != caller.customer.value
      then r == Err(AppointmentNotFound)
      else if t.appointments[id].status != Booked then r == Err(NotBooked)
      else if t.appointments[id].start <= now then r == Err(AlreadyStarted)
      else r.Ok? && IsClosed(t, r.value, id, Cancelled, AppointmentCancelled)
           && (forall i :: 0 <= i < |t.bays| ==>
                r.value.bays[i]
                == if t.bays[i].appointment == id then t.bays[i].(status := BayCancelled) else t.bays[i])
           && (forall i :: 0 <= i < |t.lines| ==>
                r.value.lines[i]
                == if t.lines[i].appointment == id then t.lines[i].(status := LineCancelled) else t.lines[i])
  {
  }

  /** The appointment has this status now, which was told once; every other one is as it was. */
  ghost predicate IsClosed(t: Tables, t': Tables, id: int, status: AppointmentStatus, topic: Topic) {
    && id in t.appointments && t'.appointments == t.appointments[id := t.appointments[id].(status := status)]
    && t'.vehicles == t.vehicles && |t'.bays| == |t.bays| && |t'.lines| == |t.lines|
    && t'.outbox == t.outbox + [Message(topic, id)]
  }

  /** A completion is refused for the first of these reasons; otherwise it completes the appointment and its lines and
      releases its bay. */
  lemma CompleteAnswers(t: Tables, id: int, currency: string)
    ensures var r := CompleteTx(t, id, currency);
      if id !in t.appointments then r == Err(AppointmentNotFound)
      else if exists i :: 0 <= i < |t.lines| && Inconvertible(t.lines[i], id, currency)
      then r == Err(FeeDoesNotConvert)
      else if t.appointments[id].status !in {Booked, CheckedIn, InProgress} then r == Err(CannotBeCompleted)
      else r.Ok? && IsClosed(t, r.value, id, Completed, ServiceCompleted)
           && (forall i :: 0 <= i < |t.bays| ==>
                r.value.bays[i]
                == if t.bays[i].appointment == id && t.bays[i].status in {Reserved, Occupied}
                   then t.bays[i].(status := Released) else t.bays[i])
           && (forall i :: 0 <= i < |t.lines| ==>
                r.value.lines[i]
                == if t.lines[i].appointment == id && t.lines[i].status != LineCancelled
                   then t.lines[i].(status := Done) else t.lines[i])
  {
    FeesOfLines(t.lines, id, currency);
    hide ToMinor;
  }

  /** The row is the appointment's, and its fee is finer than the currency. */
  predicate Inconvertible(line: LineRow, id: int, currency: string) {
    line.appointment == id && !Whole(Shift(line.fee, currency))
  }

  lemma {:induction false} FeesOfLines(lines: seq<LineRow>, id: int, currency: string)
    ensures EveryFeeConverts(LinesOf(lines, id), currency)
       <==> !exists i :: 0 <= i < |lines| && Inconvertible(lines[i], id, currency)
  {
    if lines != [] {
      var n := |lines| - 1;
      FeesOfLines(lines[..n], id, currency);
      var before := LinesOf(lines[..n], id);
      var last := BookedService(lines[n].service, "", lines[n].fee);
      assert LinesOf(lines, id) == if lines[n].appointment == id then before + [last] else before;
      hide LinesOf, EveryFeeConverts, Inconvertible, ToMinor;
      OneMoreFee(before, last, currency);
      assert forall i :: 0 <= i < n ==> lines[..n][i] == lines[i];
      InconvertibleIs(lines[n], id, currency);
    }
  }

  lemma InconvertibleIs(line: LineRow, id: int, currency: string)
    ensures Inconvertible(line, id, currency) <==> line.appointment == id && ToMinor(line.fee, currency).Err?
  {
    hide Shift, Whole, Wrap64;
  }

  lemma OneMoreFee(services: seq<BookedService>, last: BookedService, currency: string)
    ensures EveryFeeConverts(services + [last], currency) <==>
      EveryFeeConverts(services, currency) && ToMinor(last.fee, currency).Ok?
  {
    var all := services + [last];
    hide ToMinor;
    assert all[|services|] == last && forall i :: 0 <= i < |services| ==> all[i] == services[i];
  }

  // --- Availability -------------------------------------------------------------------------

  /** The start is offered on that day: a multiple of half an hour after opening, with room before closing. */
  predicate IsOffered(hub: Hub, day: int, duration: int, start: int) {
    var open, closing := day * DAY - hub.zoneOffset + hub.openHour, day * DAY - hub.zoneOffset + hub.closeHour;
    open <= start && (start - open) % (30 * MINUTE) == 0 && start + duration <= closing
  }

  predicate Lists(slots: seq<Slot>, start: int) {
    exists k :: 0 <= k < |slots| && slots[k].start == start
  }

  /** Exactly the offered starts are listed, in order; each slot takes as long as the services, and is available
      exactly if it is ahead of now and some bay can be given away for it. */
  lemma AvailabilityLists(snapshot: Snapshot, t: Tables, hubId: int, day: int, ids: seq<int>, now: int,
                          services: seq<Catalog.CatalogService>)
    requires snapshot.Valid() && hubId in snapshot.hubs && Requested(snapshot, ids, services)
    ensures AvailabilityOf(snapshot, t, hubId, Some(day), ids, now).Ok?
    ensures var slots := AvailabilityOf(snapshot, t, hubId, Some(day), ids, now).value;
      && (forall start :: Lists(slots, start) <==> IsOffered(snapshot.hubs[hubId], day, Duration(services), start))
      && (forall k :: 0 <= k < |slots| ==>
           && slots[k].end == slots[k].start + Duration(services)
           && (slots[k].available <==>
                slots[k].start > now && CanTakeSome(snapshot, t, hubId, slots[k].start, slots[k].end)))
      && forall j, k :: 0 <= j < k < |slots| ==> slots[j].start < slots[k].start
  {
    hide *;
    RequestedIsResolved(snapshot, ids);
    SlotsAre(snapshot, t, hubId, day, ids, now);
    var slots := AvailabilityOf(snapshot, t, hubId, Some(day), ids, now).value;
    var hub, duration := snapshot.hubs[hubId], Duration(services);
    forall start ensures Lists(slots, start) <==> IsOffered(hub, day, duration, start) {
      ListedIffOffered(hub, day, duration, slots, start);
    }
    forall k | 0 <= k < |slots|
      ensures slots[k].available <==>
        slots[k].start > now && CanTakeSome(snapshot, t, hubId, slots[k].start, slots[k].end)
    {
      SlotIsInHours(snapshot, hubId, day, ids, k, slots[k]);
      FreeBayMatchesAnyBayFree(snapshot.bays, t, hubId, OpensAt(hub, day), ClosesAt(hub, day),
                               slots[k].start, slots[k].end);
      CanTakeIsFreeBay(snapshot, t, hubId, slots[k].start, slots[k].end);
    }
    forall j, k | 0 <= j < k < |slots| ensures slots[j].start < slots[k].start {
      LaterStarts(j, k);
    }
  }

  lemma LaterStarts(j: nat, k: nat)
    requires j < k
    ensures j * SLOT_STEP < k * SLOT_STEP
  {
  }

  lemma ListedIffOffered(hub: Hub, day: int, duration: int, slots: seq<Slot>, start: int)
    requires var open, closing := OpensAt(hub, day), ClosesAt(hub, day);
      |slots| == SlotCount(open, closing, duration)
      && forall k :: 0 <= k < |slots| ==> slots[k].start == open + k * SLOT_STEP
    ensures Lists(slots, start) <==> IsOffered(hub, day, duration, start)
  {
    var open, closing := OpensAt(hub, day), ClosesAt(hub, day);
    if Lists(slots, start) {
      var k :| 0 <= k < |slots| && slots[k].start == start;
      SlotCountIsExact(open, closing, duration, k);
      assert (start - open) % SLOT_STEP == 0;
    }
    if IsOffered(hub, day, duration, start) {
      var k: nat := (start - open) / SLOT_STEP;
      assert start == open + k * SLOT_STEP;
      SlotCountIsExact(open, closing, duration, k);
      assert slots[k].start == start;
    }
  }

  /** It fails exactly for an unknown hub, bad services or no date, in this order. */
  lemma AvailabilityRefuses(snapshot: Snapshot, t: Tables, hubId: int, day: Option<int>, ids: seq<int>, now: int)
    ensures var r := AvailabilityOf(snapshot, t, hubId, day, ids, now);
      if hubId !in snapshot.hubs then r == Err(HubNotFound)
      else if !KnownServices(snapshot, ids) then r == Err(InvalidServices)
      else if day.None? then r == Err(InvalidDate)
      else r.Ok?
  {
    ResolvesIfKnown(snapshot, ids);
    hide Catalog.Resolve, KnownServices, SlotAt, SlotCount;
  }
}
