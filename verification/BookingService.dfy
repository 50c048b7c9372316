/** Book, Cancel, Complete and Availability as one caller runs them. */
module BookingService {
  import opened Prelude
  import opened SchedulerMoney
  import opened AppointmentTables
  import Catalog

  const MINUTE: int := 60_000_000 // an instant is a number of microseconds
  const DAY: int := 24 * 60 * MINUTE
  const SLOT_STEP: int := 30 * MINUTE

  /** A hub's opening hours count from local midnight, at a fixed distance from UTC. */
  datatype Hub = Hub(id: int, openHour: int, closeHour: int, zoneOffset: int) {
    predicate Valid() {
      0 <= openHour < closeHour < DAY
    }
  }

  /** The catalog snapshot: hubs, bays in order of code, and active services. */
  datatype Snapshot = Snapshot(hubs: map<int, Hub>, bays: seq<Bay>, services: seq<Catalog.CatalogService>) {
    predicate Valid() {
      && (forall id :: id in hubs ==> hubs[id].Valid())
      && Catalog.UniqueIds(services)
      && (forall i :: 0 <= i < |services| ==> services[i].durationMinutes > 0)
    }
  }

  datatype Request = Request(hub: int, vehicle: int, start: int, serviceIds: seq<int>)

  /** What customer-service and vehicle-service answer about the caller. */
  datatype Caller = Caller(customer: Option<int>, vehicles: Option<seq<int>>)

  datatype Slot = Slot(start: int, end: int, available: bool)

  datatype Reservation = Reservation(bay: int, start: int, end: int)

  datatype Error =
    | HubNotFound | InvalidServices | InvalidDate | NotInTheFuture | OutsideOpeningHours
    | CallerUnknown | VehiclesUnknown | NotYourVehicle
    | VehicleHasBooking | NoBayFree | SlotJustTaken
    | AppointmentNotFound | NotBooked | AlreadyStarted | NotBookedAnyMore | CannotBeCompleted | FeeDoesNotConvert

  function LocalDay(hub: Hub, instant: int): int {
    (instant + hub.zoneOffset) / DAY
  }

  function OpensAt(hub: Hub, day: int): int {
    day * DAY - hub.zoneOffset + hub.openHour
  }

  function ClosesAt(hub: Hub, day: int): int {
    day * DAY - hub.zoneOffset + hub.closeHour
  }

  function Duration(services: seq<Catalog.CatalogService>): int {
    Catalog.TotalDuration(services) * MINUTE
  }

  function BookedServices(services: seq<Catalog.CatalogService>): seq<BookedService> {
    seq(|services|, i requires 0 <= i < |services| => BookedService(services[i].id, services[i].name, services[i].fee))
  }

  /** Everything Book checks before its transaction. */
  function Checked(snapshot: Snapshot, req: Request, now: int, caller: Caller): Result<Booking, Error> {
    if req.hub !in snapshot.hubs then Err(HubNotFound)
    else
      var hub := snapshot.hubs[req.hub];
      var services := Catalog.Resolve(snapshot.services, req.serviceIds);
      if services.None? then Err(InvalidServices)
      else
        var end := req.start + Duration(services.value);
        var day := LocalDay(hub, req.start);
        if req.start <= now then Err(NotInTheFuture)
        else if req.start < OpensAt(hub, day) || end > ClosesAt(hub, day) then Err(OutsideOpeningHours)
        else if caller.customer.None? then Err(CallerUnknown)
        else if caller.vehicles.None? then Err(VehiclesUnknown)
        else if req.vehicle !in caller.vehicles.value then Err(NotYourVehicle)
        else Ok(Booking(req.hub, caller.customer.value, req.vehicle, req.start, end, BookedServices(services.value)))
  }

  /** The booking transaction run alone. */
  function BookTx(bays: seq<Bay>, t: Tables, id: int, b: Booking): Result<Tables, Error> {
    if VehicleBusy(t, b.vehicle, b.start, b.end) then Err(VehicleHasBooking)
    else
      var bay := FreeBay(bays, t, b.hub, b.start, b.end);
      if bay.None? then Err(NoBayFree) else Ok(CommitBooking(t, id, b, bay.value))
  }

  // --- When a booking is taken, and what is stored of it ------------------------------

  /** services are the requested ones, each once, where it was first named. */
  ghost predicate Requested(snapshot: Snapshot, ids: seq<int>, services: seq<Catalog.CatalogService>) {
    ids != [] && Catalog.RowsFor(services, Catalog.FirstOccurrences(ids), snapshot.services)
  }

  /** On the hub's clock the interval starts no earlier than it opens and ends no later than it closes that day. */
  predicate InOpeningHours(hub: Hub, start: int, end: int) {
    var clock := (start + hub.zoneOffset) % DAY;
    hub.openHour <= clock && clock + (end - start) <= hub.closeHour
  }

  /** No appointment of the vehicle that is still to happen lies in the interval. */
  ghost predicate Idle(t: Tables, vehicle: int, start: int, end: int) {
    forall i :: 0 <= i < |t.vehicles| && t.vehicles[i].vehicle == vehicle
                && t.vehicles[i].appointment in t.appointments ==>
      var a := t.appointments[t.vehicles[i].appointment];
      a.status in {Booked, CheckedIn, InProgress} ==> !Meets(a.start, a.end, start, end)
  }

  /** Two intervals have an instant in common; their ends do not belong to them. */
  ghost predicate Meets(start: int, end: int, from: int, to: int) {
    exists instant :: Within(instant, start, end) && Within(instant, from, to)
  }

  predicate Within(instant: int, start: int, end: int) {
    start <= instant < end
  }

  /** No reservation of the bay that was not cancelled lies in the interval. */
  ghost predicate Unreserved(t: Tables, bay: int, start: int, end: int) {
    forall i :: 0 <= i < |t.bays| && t.bays[i].bay == bay && t.bays[i].status != BayCancelled ==>
      !Meets(t.bays[i].start, t.bays[i].end, start, end)
  }

  /** The k-th bay of the catalog can be given away. */
  ghost predicate CanTake(snapshot: Snapshot, t: Tables, hub: int, start: int, end: int, k: int) {
    && 0 <= k < |snapshot.bays| && snapshot.bays[k].hub == hub && snapshot.bays[k].available
    && Unreserved(t, snapshot.bays[k].id, start, end)
  }

  ghost predicate CanTakeSome(snapshot: Snapshot, t: Tables, hub: int, start: int, end: int) {
    exists k :: CanTake(snapshot, t, hub, start, end, k)
  }

  /** What Book asks of its caller and of the request, with these services. */
  ghost predicate CanAsk(snapshot: Snapshot, req: Request, now: int, caller: Caller,
                         services: seq<Catalog.CatalogService>)
  {
    && req.hub in snapshot.hubs && Requested(snapshot, req.serviceIds, services)
    && req.start > now && InOpeningHours(snapshot.hubs[req.hub], req.start, req.start + Duration(services))
    && caller.customer.Some? && caller.vehicles.Some? && req.vehicle in caller.vehicles.value
  }

  /** ... and what it asks of the tables. */
  ghost predicate CanBook(snapshot: Snapshot, t: Tables, req: Request, now: int, caller: Caller) {
    exists services: seq<Catalog.CatalogService> ::
      && CanAsk(snapshot, req, now, caller, services)
      && Idle(t, req.vehicle, req.start, req.start + Duration(services))
      && CanTakeSome(snapshot, t, req.hub, req.start, req.start + Duration(services))
  }

  /** From t to t' this request was booked under id: the requested services, in the first bay by code that could
      be given away. */
  ghost predicate IsBooked(snapshot: Snapshot, t: Tables, t': Tables, id: int, req: Request, caller: Caller) {
    exists services: seq<Catalog.CatalogService>, k: int ::
      && Requested(snapshot, req.serviceIds, services) && caller.customer.Some?
      && CanTakeFirst(snapshot, t, req.hub, req.start, req.start + Duration(services), k)
      && Stores(t, t', id, req, caller.customer.value, services, snapshot.bays[k].id)
  }

  ghost predicate CanTakeFirst(snapshot: Snapshot, t: Tables, hub: int, start: int, end: int, k: int) {
    && 0 <= k < |snapshot.bays| && CanTake(snapshot, t, hub, start, end, k)
    && forall j :: j < k ==> !CanTake(snapshot, t, hub, start, end, j)
  }

  /** The rows of the booking: one line per service, at the sum of their fees; and it is told once. */
  ghost predicate Stores(t: Tables, t': Tables, id: int, req: Request, customer: int,
                         services: seq<Catalog.CatalogService>, bay: int)
  {
    var end := req.start + Duration(services);
    && t'.appointments
       == t.appointments[id := AppointmentRow(req.hub, customer, req.start, end, Booked, Catalog.TotalFee(services))]
    && t'.vehicles == t.vehicles + [VehicleRow(id, req.vehicle)]
    && t'.bays == t.bays + [BayRow(id, bay, req.start, end, Reserved)]
    && |t'.lines| == |t.lines| + |services| && t'.lines[..|t.lines|] == t.lines
    && (forall i :: 0 <= i < |services| ==>
         t'.lines[|t.lines| + i] == LineRow(id, services[i].id, services[i].fee, Pending))
    && t'.outbox == t.outbox + [Message(AppointmentBooked, id)]
  }

  /** Requested services are exactly the resolved ones. */
  lemma RequestedIsResolved(snapshot: Snapshot, ids: seq<int>)
    requires snapshot.Valid()
    ensures forall services :: Requested(snapshot, ids, services) <==>
      Catalog.Resolve(snapshot.services, ids) == Some(services)
  {
    forall services | Requested(snapshot, ids, services)
      ensures Catalog.Resolve(snapshot.services, ids) == Some(services)
    {
      Catalog.ResolveIsUnique(snapshot.services, ids, services);
    }
    var kept, resolved := Catalog.FirstOccurrences(ids), Catalog.Resolve(snapshot.services, ids);
    if resolved.Some? {
      forall i | 0 <= i < |kept|
        ensures resolved.value[i] in snapshot.services && resolved.value[i].id == kept[i]
      {
        LookupIsARow(snapshot.services, kept[i]);
      }
    }
  }

  /** The opening hours of an instant's local day, seen on the hub's clock. */
  lemma HoursOnTheClock(hub: Hub, start: int, end: int)
    ensures var day := LocalDay(hub, start);
      InOpeningHours(hub, start, end) <==> OpensAt(hub, day) <= start && end <= ClosesAt(hub, day)
  {
    var local := start + hub.zoneOffset;
    assert local == local / DAY * DAY + local % DAY;
  }

  lemma MeetsIsOverlaps(start: int, end: int, from: int, to: int)
    ensures Meets(start, end, from, to) <==> Overlaps(start, end, from, to)
  {
    if Overlaps(start, end, from, to) {
      var instant := if start < from then from else start;
      assert Within(instant, start, end) && Within(instant, from, to);
    }
  }

  lemma IdleIsNotBusy(t: Tables, vehicle: int, start: int, end: int)
    ensures Idle(t, vehicle, start, end) <==> !VehicleBusy(t, vehicle, start, end)
  {
    forall s, e ensures Meets(s, e, start, end) <==> Overlaps(s, e, start, end) {
      MeetsIsOverlaps(s, e, start, end);
    }
    hide Overlaps, Meets;
    if VehicleBusy(t, vehicle, start, end) {
      var i :| 0 <= i < |t.vehicles| && Occupies(t, i, vehicle, start, end);
    }
    if !Idle(t, vehicle, start, end) {
      var i :| 0 <= i < |t.vehicles| && t.vehicles[i].vehicle == vehicle
        && t.vehicles[i].appointment in t.appointments
        && var a := t.appointments[t.vehicles[i].appointment];
           a.status in {Booked, CheckedIn, InProgress} && Meets(a.start, a.end, start, end);
      assert Occupies(t, i, vehicle, start, end);
    }
  }

  lemma UnreservedIsFree(t: Tables, bay: int, start: int, end: int)
    ensures Unreserved(t, bay, start, end) <==> BayFree(t, bay, start, end)
  {
    forall s, e ensures Meets(s, e, start, end) <==> Overlaps(s, e, start, end) {
      MeetsIsOverlaps(s, e, start, end);
    }
    hide Overlaps, Meets;
    if BayFree(t, bay, start, end) {
      forall i | 0 <= i < |t.bays| && t.bays[i].bay == bay && t.bays[i].status != BayCancelled
        ensures !Meets(t.bays[i].start, t.bays[i].end, start, end)
      {
        assert !Blocks(t.bays[i], bay, start, end);
      }
    }
  }

  /** FreeBay takes the first bay of the catalog that can be given away. */
  lemma {:induction false} FreeBayIsTheFirst(bays: seq<Bay>, t: Tables, hub: int, start: int, end: int)
    requires FreeBay(bays, t, hub, start, end).Some?
    ensures exists k :: IsFirst(bays, t, hub, start, end, k) && bays[k].id == FreeBay(bays, t, hub, start, end).value
  {
    if bays[0].hub == hub && bays[0].available && BayFree(t, bays[0].id, start, end) {
      assert IsFirst(bays, t, hub, start, end, 0);
    } else {
      FreeBayIsTheFirst(bays[1..], t, hub, start, end);
      var k :| IsFirst(bays[1..], t, hub, start, end, k)
        && bays[1..][k].id == FreeBay(bays, t, hub, start, end).value;
      forall j | 0 <= j < k + 1
        ensures !(bays[j].hub == hub && bays[j].available && BayFree(t, bays[j].id, start, end))
      {
        assert j > 0 ==> bays[j] == bays[1..][j - 1];
      }
      assert IsFirst(bays, t, hub, start, end, k + 1);
    }
  }

  ghost predicate IsFirst(bays: seq<Bay>, t: Tables, hub: int, start: int, end: int, k: int) {
    && 0 <= k < |bays| && bays[k].hub == hub && bays[k].available && BayFree(t, bays[k].id, start, end)
    && forall j :: 0 <= j < k ==> !(bays[j].hub == hub && bays[j].available && BayFree(t, bays[j].id, start, end))
  }

  lemma {:induction false} FeesAddUp(services: seq<Catalog.CatalogService>)
    ensures Total(BookedServices(services)) == Catalog.TotalFee(services)
  {
    if services != [] {
      FeesAddUp(services[..|services| - 1]);
      assert BookedServices(services)[..|services| - 1] == BookedServices(services[..|services| - 1]);
    }
  }

  /** With these services the checks that are left are made in this order. */
  lemma ChecksInOrder(snapshot: Snapshot, req: Request, now: int, caller: Caller, services: seq<Catalog.CatalogService>)
    requires req.hub in snapshot.hubs && Catalog.Resolve(snapshot.services, req.serviceIds) == Some(services)
    ensures var end := req.start + Duration(services);
      Checked(snapshot, req, now, caller)
      == if req.start <= now then Err(NotInTheFuture)
         else if !InOpeningHours(snapshot.hubs[req.hub], req.start, end) then Err(OutsideOpeningHours)
         else if caller.customer.None? then Err(CallerUnknown)
         else if caller.vehicles.None? then Err(VehiclesUnknown)
         else if req.vehicle !in caller.vehicles.value then Err(NotYourVehicle)
         else Ok(Booking(req.hub, caller.customer.value, req.vehicle, req.start, end, BookedServices(services)))
  {
    hide Catalog.Resolve, InOpeningHours, OpensAt, ClosesAt, LocalDay, Duration, BookedServices;
    HoursOnTheClock(snapshot.hubs[req.hub], req.start, req.start + Duration(services));
  }

  /** The request passes exactly the checks that CanAsk lists. */
  lemma CheckedIff(snapshot: Snapshot, req: Request, now: int, caller: Caller)
    requires snapshot.Valid()
    ensures Checked(snapshot, req, now, caller).Ok? <==> exists services :: CanAsk(snapshot, req, now, caller, services)
    ensures forall services :: CanAsk(snapshot, req, now, caller, services) ==>
      && caller.customer.Some?
      && Checked(snapshot, req, now, caller)
         == Ok(Booking(req.hub, caller.customer.value, req.vehicle, req.start, req.start + Duration(services),
                       BookedServices(services)))
  {
    hide *;
    RequestedIsResolved(snapshot, req.serviceIds);
    forall services ensures CanAsk(snapshot, req, now, caller, services) <==>
        CanAskWith(snapshot, req, now, caller, services)
    {
      CanAskIs(snapshot, req, now, caller, services);
    }
    var resolved := Catalog.Resolve(snapshot.services, req.serviceIds);
    if req.hub in snapshot.hubs && resolved.Some? {
      ChecksInOrder(snapshot, req, now, caller, resolved.value);
      AsksWith(snapshot, req, now, caller, resolved.value);
    } else {
      NothingToCheck(snapshot, req, now, caller);
    }
  }

  ghost predicate CanAskWith(snapshot: Snapshot, req: Request, now: int, caller: Caller,
                             services: seq<Catalog.CatalogService>)
  {
    && req.hub in snapshot.hubs && Catalog.Resolve(snapshot.services, req.serviceIds) == Some(services)
    && req.start > now && InOpeningHours(snapshot.hubs[req.hub], req.start, req.start + Duration(services))
    && caller.customer.Some? && caller.vehicles.Some? && req.vehicle in caller.vehicles.value
  }

  lemma CanAskIs(snapshot: Snapshot, req: Request, now: int, caller: Caller, services: seq<Catalog.CatalogService>)
    requires Requested(snapshot, req.serviceIds, services) <==>
      Catalog.Resolve(snapshot.services, req.serviceIds) == Some(services)
    ensures CanAsk(snapshot, req, now, caller, services) <==> CanAskWith(snapshot, req, now, caller, services)
  {
    hide Requested, Catalog.Resolve, InOpeningHours, Duration;
  }

  lemma AsksWith(snapshot: Snapshot, req: Request, now: int, caller: Caller, services: seq<Catalog.CatalogService>)
    requires req.hub in snapshot.hubs && Catalog.Resolve(snapshot.services, req.serviceIds) == Some(services)
    ensures forall other :: CanAskWith(snapshot, req, now, caller, other) ==> other == services
    ensures CanAskWith(snapshot, req, now, caller, services) <==>
      && req.start > now && InOpeningHours(snapshot.hubs[req.hub], req.start, req.start + Duration(services))
      && caller.customer.Some? && caller.vehicles.Some? && req.vehicle in caller.vehicles.value
  {
    hide Catalog.Resolve, InOpeningHours, Duration;
  }

  lemma NothingToCheck(snapshot: Snapshot, req: Request, now: int, caller: Caller)
    requires req.hub !in snapshot.hubs || Catalog.Resolve(snapshot.services, req.serviceIds).None?
    ensures Checked(snapshot, req, now, caller)
         == if req.hub !in snapshot.hubs then Err(HubNotFound) else Err(InvalidServices)
    ensures forall services :: !CanAskWith(snapshot, req, now, caller, services)
  {
    hide Catalog.Resolve, InOpeningHours, Duration;
  }

  /** A booking is taken exactly if CanBook says so, and stored as IsBooked says. */
  lemma BookIff(snapshot: Snapshot, t: Tables, id: int, req: Request, now: int, caller: Caller)
    requires snapshot.Valid()
    ensures var checked := Checked(snapshot, req, now, caller);
      && (CanBook(snapshot, t, req, now, caller) <==>
           checked.Ok? && BookTx(snapshot.bays, t, id, checked.value).Ok?)
      && (checked.Ok? && BookTx(snapshot.bays, t, id, checked.value).Ok? ==>
           IsBooked(snapshot, t, BookTx(snapshot.bays, t, id, checked.value).value, id, req, caller))
  {
    hide *;
    CheckedIff(snapshot, req, now, caller);
    var checked := Checked(snapshot, req, now, caller);
    if checked.Ok? {
      var services :| CanAsk(snapshot, req, now, caller, services);
      AskedIsRequested(snapshot, req, now, caller, services);
      BookTxIff(snapshot, t, id, req, caller, services);
      CanBookWith(snapshot, t, req, now, caller, services);
    } else {
      CanAskFirst(snapshot, t, req, now, caller);
    }
  }

  lemma CanAskFirst(snapshot: Snapshot, t: Tables, req: Request, now: int, caller: Caller)
    requires !exists services :: CanAsk(snapshot, req, now, caller, services)
    ensures !CanBook(snapshot, t, req, now, caller)
  {
    hide CanAsk;
  }

  lemma CanBookWith(snapshot: Snapshot, t: Tables, req: Request, now: int, caller: Caller,
                    services: seq<Catalog.CatalogService>)
    requires snapshot.Valid() && CanAsk(snapshot, req, now, caller, services)
    ensures CanBook(snapshot, t, req, now, caller)
       <==> Idle(t, req.vehicle, req.start, req.start + Duration(services))
            && CanTakeSome(snapshot, t, req.hub, req.start, req.start + Duration(services))
  {
    hide CanAsk, Snapshot.Valid, Idle, CanTakeSome, Duration;
    AskedOnce(snapshot, req, now, caller, services);
    if CanBook(snapshot, t, req, now, caller) {
      var other :| CanAsk(snapshot, req, now, caller, other)
        && Idle(t, req.vehicle, req.start, req.start + Duration(other))
        && CanTakeSome(snapshot, t, req.hub, req.start, req.start + Duration(other));
      assert other == services;
    }
  }

  lemma AskedIsRequested(snapshot: Snapshot, req: Request, now: int, caller: Caller,
                         services: seq<Catalog.CatalogService>)
    requires CanAsk(snapshot, req, now, caller, services)
    ensures Requested(snapshot, req.serviceIds, services) && caller.customer.Some?
  {
  }

  lemma AskedOnce(snapshot: Snapshot, req: Request, now: int, caller: Caller, services: seq<Catalog.CatalogService>)
    requires snapshot.Valid() && CanAsk(snapshot, req, now, caller, services)
    ensures forall other :: CanAsk(snapshot, req, now, caller, other) ==> other == services
  {
    RequestedIsResolved(snapshot, req.serviceIds);
    hide Requested, Catalog.Resolve;
  }

  lemma BookTxIff(snapshot: Snapshot, t: Tables, id: int, req: Request, caller: Caller,
                  services: seq<Catalog.CatalogService>)
    requires Requested(snapshot, req.serviceIds, services) && caller.customer.Some?
    ensures var end := req.start + Duration(services);
      var b := Booking(req.hub, caller.customer.value, req.vehicle, req.start, end, BookedServices(services));
      var r := BookTx(snapshot.bays, t, id, b);
      && (r.Ok? <==> Idle(t, req.vehicle, req.start, end)
                     && CanTakeSome(snapshot, t, req.hub, req.start, end))
      && (r.Ok? ==> IsBooked(snapshot, t, r.value, id, req, caller))
  {
    hide *;
    var end := req.start + Duration(services);
    var b := Booking(req.hub, caller.customer.value, req.vehicle, req.start, end, BookedServices(services));
    var bay := FreeBay(snapshot.bays, t, req.hub, req.start, end);
    IdleIsNotBusy(t, req.vehicle, req.start, end);
    CanTakeIsFreeBay(snapshot, t, req.hub, req.start, end);
    TurnedAwayOrCommitted(snapshot.bays, t, id, b);
    if bay.Some? && !VehicleBusy(t, req.vehicle, req.start, end) {
      var k :| CanTakeFirst(snapshot, t, req.hub, req.start, end, k) && IsTheBay(snapshot, k, bay.value);
      IsBookedSo(snapshot, t, id, req, caller, services, k, bay.value, b);
    }
  }

  lemma TurnedAwayOrCommitted(bays: seq<Bay>, t: Tables, id: int, b: Booking)
    ensures var bay := FreeBay(bays, t, b.hub, b.start, b.end);
      BookTx(bays, t, id, b)
      == if VehicleBusy(t, b.vehicle, b.start, b.end) then Err(VehicleHasBooking)
         else if bay.None? then Err(NoBayFree) else Ok(CommitBooking(t, id, b, bay.value))
  {
    hide VehicleBusy, FreeBay, CommitBooking;
  }

  predicate IsTheBay(snapshot: Snapshot, k: int, bay: int) {
    0 <= k < |snapshot.bays| && snapshot.bays[k].id == bay
  }

  lemma CanTakeIsFreeBay(snapshot: Snapshot, t: Tables, hub: int, start: int, end: int)
    ensures var bay := FreeBay(snapshot.bays, t, hub, start, end);
      && (bay.Some? <==> CanTakeSome(snapshot, t, hub, start, end))
      && (bay.Some? ==> exists k ::
           CanTakeFirst(snapshot, t, hub, start, end, k) && IsTheBay(snapshot, k, bay.value))
  {
    forall bay ensures Unreserved(t, bay, start, end) <==> BayFree(t, bay, start, end) {
      UnreservedIsFree(t, bay, start, end);
    }
    hide Unreserved, BayFree, BayOfHub;
    var bay := FreeBay(snapshot.bays, t, hub, start, end);
    if bay.Some? {
      FreeBayIsTheFirst(snapshot.bays, t, hub, start, end);
      var k :| IsFirst(snapshot.bays, t, hub, start, end, k) && snapshot.bays[k].id == bay.value;
      assert CanTakeFirst(snapshot, t, hub, start, end, k) && IsTheBay(snapshot, k, bay.value);
    } else {
      forall k ensures !CanTake(snapshot, t, hub, start, end, k) {
        assert 0 <= k < |snapshot.bays| ==> snapshot.bays[k] in snapshot.bays;
      }
    }
  }

  lemma IsBookedSo(snapshot: Snapshot, t: Tables, id: int, req: Request, caller: Caller,
                   services: seq<Catalog.CatalogService>, k: int, bay: int, b: Booking)
    requires Requested(snapshot, req.serviceIds, services) && caller.customer.Some?
    requires b == Booking(req.hub, caller.customer.value, req.vehicle, req.start, req.start + Duration(services),
                          BookedServices(services))
    requires CanTakeFirst(snapshot, t, req.hub, req.start, b.end, k) && IsTheBay(snapshot, k, bay)
    ensures IsBooked(snapshot, t, CommitBooking(t, id, b, bay), id, req, caller)
  {
    CommittedIsStored(t, id, b, bay, req, services);
    hide Requested, CanTakeFirst, Duration, Stores, CommitBooking, BookedServices;
    assert snapshot.bays[k].id == bay;
  }

  lemma CommittedIsStored(t: Tables, id: int, b: Booking, bay: int, req: Request, services: seq<Catalog.CatalogService>)
    requires b == Booking(req.hub, b.customer, req.vehicle, req.start, req.start + Duration(services),
                          BookedServices(services))
    ensures Stores(t, CommitBooking(t, id, b, bay), id, req, b.customer, services, bay)
  {
    FeesAddUp(services);
    CommittedLines(t, id, b, bay, services);
    hide Duration, Total, Catalog.TotalFee, BookedServices, NewLines;
  }

  lemma CommittedLines(t: Tables, id: int, b: Booking, bay: int, services: seq<Catalog.CatalogService>)
    requires b.services == BookedServices(services)
    ensures var t' := CommitBooking(t, id, b, bay);
      && |t'.lines| == |t.lines| + |services| && t'.lines[..|t.lines|] == t.lines
      && forall i :: 0 <= i < |services| ==>
           t'.lines[|t.lines| + i] == LineRow(id, services[i].id, services[i].fee, Pending)
  {
    BookedServicesAre(services);
    hide BookedServices, Total;
  }

  lemma BookedServicesAre(services: seq<Catalog.CatalogService>)
    ensures |BookedServices(services)| == |services|
    ensures forall i :: 0 <= i < |services| ==>
      BookedServices(services)[i] == BookedService(services[i].id, services[i].name, services[i].fee)
  {
  }

  function CancelTx(t: Tables, id: int, now: int, caller: Caller): Result<Tables, Error> {
    if caller.customer.None? then Err(CallerUnknown)
    else if id !in t.appointments || t.appointments[id].customer != caller.customer.value then Err(AppointmentNotFound)
    else if t.appointments[id].status != Booked then Err(NotBooked)
    else if t.appointments[id].start <= now then Err(AlreadyStarted)
    else Ok(CommitCancel(t, id))
  }

  function LinesOf(lines: seq<LineRow>, id: int): seq<BookedService> {
    if lines == [] then []
    else
      var init := LinesOf(lines[..|lines| - 1], id);
      var last := lines[|lines| - 1];
      if last.appointment == id then init + [BookedService(last.service, "", last.fee)] else init
  }

  function CompleteTx(t: Tables, id: int, currency: string): Result<Tables, Error> {
    if id !in t.appointments then Err(AppointmentNotFound)
    else if !EveryFeeConverts(LinesOf(t.lines, id), currency) then Err(FeeDoesNotConvert)
    else if !Live(t.appointments[id].status) then Err(CannotBeCompleted)
    else Ok(CommitComplete(t, id))
  }

  /** The tables as fields a transaction updates in place. */
  class StoredTables {
    var appointments: map<int, AppointmentRow>
    var vehicles: seq<VehicleRow>
    var bays: seq<BayRow>
    var lines: seq<LineRow>
    var outbox: seq<Message>
    var nextId: int

    constructor ()
      ensures Contents() == EMPTY && nextId == 1
    {
      appointments, vehicles, bays, lines, outbox, nextId := map[], [], [], [], [], 1;
    }

    function Contents(): Tables
      reads this
    {
      Tables(appointments, vehicles, bays, lines, outbox)
    }

    /** A failed transaction takes back its writes, but not the ids it drew. */
    method RollBack(to: Tables)
      modifies this
      ensures Contents() == to && nextId == old(nextId)
    {
      appointments, vehicles, bays, lines, outbox := to.appointments, to.vehicles, to.bays, to.lines, to.outbox;
    }

    /** The four inserts of a booking; the exclusion constraint stops them at the bay. */
    method Create(b: Booking, bay: int) returns (r: Result<int, Error>)
      modifies this
      ensures nextId == old(nextId) + 1
      ensures BayFree(old(Contents()), bay, b.start, b.end) ==>
        r == Ok(old(nextId)) && Contents() == InsertAppointment(old(Contents()), old(nextId), b, bay)
      ensures !BayFree(old(Contents()), bay, b.start, b.end) ==> r == Err(SlotJustTaken)
    {
      var id := nextId;
      nextId := nextId + 1;
      appointments := appointments[id := AppointmentRow(b.hub, b.customer, b.start, b.end, Booked, Total(b.services))];
      vehicles := vehicles + [VehicleRow(id, b.vehicle)];
      if !BayFree(Contents(), bay, b.start, b.end) {
        return Err(SlotJustTaken);
      }
      bays := bays + [BayRow(id, bay, b.start, b.end, Reserved)];
      var added := [];
      for i := 0 to |b.services|
        invariant added == NewLines(id, b.services[..i])
      {
        added := added + [LineRow(id, b.services[i].serviceId, b.services[i].fee, Pending)];
      }
      assert b.services[..|b.services|] == b.services;
      lines := lines + added;
      return Ok(id);
    }

    /** UPDATE ... WHERE id = id AND status = 'BOOKED', then the bay and service rows. */
    method CancelRows(id: int) returns (matched: bool)
      modifies this
      ensures matched <==> id in old(appointments) && old(appointments)[id].status == Booked
      ensures nextId == old(nextId)
      ensures if matched then WithMessage(Contents(), AppointmentCancelled, id) == CommitCancel(old(Contents()), id)
              else Contents() == old(Contents())
    {
      matched := id in appointments && appointments[id].status == Booked;
      if matched {
        appointments := WithStatus(appointments, id, Cancelled);
        bays := CancelBays(bays, id);
        lines := CancelLines(lines, id);
      }
    }

    method CompleteRows(id: int) returns (matched: bool)
      modifies this
      ensures matched <==> id in old(appointments) && Live(old(appointments)[id].status)
      ensures nextId == old(nextId)
      ensures if matched then WithMessage(Contents(), ServiceCompleted, id) == CommitComplete(old(Contents()), id)
              else Contents() == old(Contents())
    {
      matched := id in appointments && Live(appointments[id].status);
      if matched {
        appointments := WithStatus(appointments, id, Completed);
        bays := ReleaseBays(bays, id);
        lines := FinishLines(lines, id);
      }
    }

    method WriteEvent(topic: Topic, id: int)
      modifies this`outbox
      ensures Contents() == WithMessage(old(Contents()), topic, id)
    {
      outbox := outbox + [Message(topic, id)];
    }

    /** The reservations of the hub's bays that overlap [from, to). */
    method Reservations(catalog: seq<Bay>, hub: int, from: int, to: int) returns (r: seq<Reservation>)
      ensures r == ReservationsIn(bays, catalog, hub, from, to)
    {
      r := [];
      for i := 0 to |bays|
        invariant r == ReservationsIn(bays[..i], catalog, hub, from, to)
      {
        assert bays[..i + 1][..i] == bays[..i];
        var row := bays[i];
        if BayOfHub(catalog, row.bay, hub) && row.status != BayCancelled && Overlaps(row.start, row.end, from, to) {
          r := r + [Reservation(row.bay, row.start, row.end)];
        }
      }
      assert bays[..|bays|] == bays;
    }
  }

  function ReservationsIn(rows: seq<BayRow>, catalog: seq<Bay>, hub: int, from: int, to: int): seq<Reservation> {
    if rows == [] then []
    else
      var init := ReservationsIn(rows[..|rows| - 1], catalog, hub, from, to);
      var row := rows[|rows| - 1];
      if BayOfHub(catalog, row.bay, hub) && row.status != BayCancelled && Overlaps(row.start, row.end, from, to)
      then init + [Reservation(row.bay, row.start, row.end)] else init
  }

  function BookableBays(catalog: seq<Bay>, hub: int): seq<Bay> {
    if catalog == [] then []
    else
      var rest := BookableBays(catalog[1..], hub);
      if catalog[0].hub == hub && catalog[0].available then [catalog[0]] + rest else rest
  }

  predicate Clashes(r: Reservation, bay: int, start: int, end: int) {
    r.bay == bay && r.start < end && start < r.end
  }

  predicate BayUnclaimed(reservations: seq<Reservation>, bay: int, start: int, end: int) {
    forall i :: 0 <= i < |reservations| ==> !Clashes(reservations[i], bay, start, end)
  }

  predicate SomeBayUnclaimed(bays: seq<Bay>, reservations: seq<Reservation>, start: int, end: int) {
    exists i :: 0 <= i < |bays| && BayUnclaimed(reservations, bays[i].id, start, end)
  }

  method AnyBayFree(bays: seq<Bay>, reservations: seq<Reservation>, start: int, end: int) returns (found: bool)
    ensures found <==> SomeBayUnclaimed(bays, reservations, start, end)
  {
    for i := 0 to |bays|
      invariant forall k :: 0 <= k < i ==> !BayUnclaimed(reservations, bays[k].id, start, end)
    {
      var free := true;
      for j := 0 to |reservations|
        invariant free
        invariant forall k :: 0 <= k < j ==> !Clashes(reservations[k], bays[i].id, start, end)
      {
        if Clashes(reservations[j], bays[i].id, start, end) {
          free := false;
          break;
        }
      }
      if free {
        return true;
      }
    }
    return false;
  }

  /** How many starts open, open + 30 minutes, ... leave room for the services before closing. */
  function SlotCount(open: int, closing: int, duration: int): nat {
    if open + duration > closing then 0 else (closing - duration - open) / SLOT_STEP + 1
  }

  /** The k-th offered slot. */
  function SlotAt(snapshot: Snapshot, t: Tables, hub: Hub, day: int, duration: int, now: int, k: nat): Slot {
    var open := OpensAt(hub, day);
    var start := open + k * SLOT_STEP;
    var reservations := ReservationsIn(t.bays, snapshot.bays, hub.id, open, ClosesAt(hub, day));
    var bays := BookableBays(snapshot.bays, hub.id);
    Slot(start, start + duration, start > now && SomeBayUnclaimed(bays, reservations, start, start + duration))
  }

  function AvailabilityOf(snapshot: Snapshot, t: Tables, hubId: int, day: Option<int>, serviceIds: seq<int>, now: int)
    : Result<seq<Slot>, Error>
  {
    if hubId !in snapshot.hubs then Err(HubNotFound)
    else
      var services := Catalog.Resolve(snapshot.services, serviceIds);
      if services.None? then Err(InvalidServices)
      else if day.None? then Err(InvalidDate)
      else
        var hub := snapshot.hubs[hubId].(id := hubId);
        var duration := Duration(services.value);
        Ok(seq(SlotCount(OpensAt(hub, day.value), ClosesAt(hub, day.value), duration),
               k requires 0 <= k => SlotAt(snapshot, t, hub, day.value, duration, now, k)))
  }

  class Service {
    const store: StoredTables
    const snapshot: Snapshot

    constructor (store: StoredTables, snapshot: Snapshot)
      ensures this.store == store && this.snapshot == snapshot
    {
      this.store, this.snapshot := store, snapshot;
    }

    /** The transaction never runs into the bay constraint after FreeBay found a bay. */
    method Book(req: Request, now: int, caller: Caller) returns (r: Result<int, Error>)
      requires snapshot.Valid()
      modifies store
      ensures var checked := Checked(snapshot, req, now, caller);
        if checked.Err? then r == Err(checked.error) && store.Contents() == old(store.Contents())
        else
          var tx := BookTx(snapshot.bays, old(store.Contents()), old(store.nextId), checked.value);
          if tx.Ok? then r == Ok(old(store.nextId)) && store.Contents() == tx.value
          else r == Err(tx.error) && store.Contents() == old(store.Contents())
      ensures r != Err(SlotJustTaken)
      ensures r.Ok? <==> CanBook(snapshot, old(store.Contents()), req, now, caller)
      ensures r.Ok? ==> IsBooked(snapshot, old(store.Contents()), store.Contents(), r.value, req, caller)
    {
      hide BookTx, CanBook, IsBooked, Checked, Snapshot.Valid;
      BookIff(snapshot, store.Contents(), store.nextId, req, now, caller);
      var checked := Check(req, now, caller);
      if checked.Err? {
        return Err(checked.error);
      }
      var before := store.Contents();
      r := Reserve(checked.value);
      if r.Err? {
        store.RollBack(before);
      }
    }

    /** What Book checks before its transaction, in this order, and the appointment it makes of the request. */
    method Check(req: Request, now: int, caller: Caller) returns (r: Result<Booking, Error>)
      requires snapshot.Valid()
      ensures r == Checked(snapshot, req, now, caller)
      ensures r != Err(SlotJustTaken)
    {
      hide Catalog.Resolve, Catalog.TotalDuration, OpensAt, ClosesAt, LocalDay;
      if req.hub !in snapshot.hubs {
        return Err(HubNotFound);
      }
      var hub := snapshot.hubs[req.hub];
      var resolved := Catalog.ResolveServices(snapshot.services, req.serviceIds);
      if resolved.Err? {
        return Err(InvalidServices);
      }
      var minutes := Catalog.SumDuration(resolved.value);
      var end := req.start + minutes * MINUTE;
      var day := LocalDay(hub, req.start);
      if req.start <= now {
        return Err(NotInTheFuture);
      }
      if req.start < OpensAt(hub, day) || end > ClosesAt(hub, day) {
        return Err(OutsideOpeningHours);
      }
      if caller.customer.None? {
        return Err(CallerUnknown);
      }
      if caller.vehicles.None? {
        return Err(VehiclesUnknown);
      }
      if req.vehicle !in caller.vehicles.value {
        return Err(NotYourVehicle);
      }
      var services := [];
      for i := 0 to |resolved.value|
        invariant services == BookedServices(resolved.value[..i])
      {
        var svc := resolved.value[i];
        services := services + [BookedService(svc.id, svc.name, svc.fee)];
      }
      assert resolved.value[..|resolved.value|] == resolved.value;
      return Ok(Booking(req.hub, caller.customer.value, req.vehicle, req.start, end, services));
    }

    /** The statements of the booking transaction; its writes stand only if it succeeds. */
    method Reserve(b: Booking) returns (r: Result<int, Error>)
      modifies store
      ensures var tx := BookTx(snapshot.bays, old(store.Contents()), old(store.nextId), b);
        if tx.Ok? then r == Ok(old(store.nextId)) && store.Contents() == tx.value else r == Err(tx.error)
      ensures r != Err(SlotJustTaken)
    {
      if VehicleBusy(store.Contents(), b.vehicle, b.start, b.end) {
        return Err(VehicleHasBooking);
      }
      var bay := FreeBay(snapshot.bays, store.Contents(), b.hub, b.start, b.end);
      if bay.None? {
        return Err(NoBayFree);
      }
      r := store.Create(b, bay.value);
      if r.Ok? {
        store.WriteEvent(AppointmentBooked, r.value);
      }
    }

    method Cancel(id: int, now: int, caller: Caller) returns (r: Result<(), Error>)
      modifies store
      ensures var tx := CancelTx(old(store.Contents()), id, now, caller);
        if tx.Ok? then r == Ok(()) && store.Contents() == tx.value
        else r == Err(tx.error) && store.Contents() == old(store.Contents())
    {
      if caller.customer.None? {
        return Err(CallerUnknown);
      }
      if id !in store.appointments || store.appointments[id].customer != caller.customer.value {
        return Err(AppointmentNotFound);
      }
      if store.appointments[id].status != Booked {
        return Err(NotBooked);
      }
      if store.appointments[id].start <= now {
        return Err(AlreadyStarted);
      }
      var matched := store.CancelRows(id);
      if !matched {
        return Err(NotBookedAnyMore);
      }
      store.WriteEvent(AppointmentCancelled, id);
      return Ok(());
    }

    method Complete(id: int, currency: string) returns (r: Result<(), Error>)
      modifies store
      ensures var tx := CompleteTx(old(store.Contents()), id, currency);
        if tx.Ok? then r == Ok(()) && store.Contents() == tx.value
        else r == Err(tx.error) && store.Contents() == old(store.Contents())
    {
      if id !in store.appointments {
        return Err(AppointmentNotFound);
      }
      var lines := NewServiceCompletedLines(LinesOf(store.lines, id), currency);
      if lines.Err? {
        return Err(FeeDoesNotConvert);
      }
      var matched := store.CompleteRows(id);
      if !matched {
        return Err(CannotBeCompleted);
      }
      store.WriteEvent(ServiceCompleted, id);
      return Ok(());
    }

    method Availability(hubId: int, day: Option<int>, serviceIds: seq<int>, now: int)
      returns (r: Result<seq<Slot>, Error>)
      requires snapshot.Valid()
      ensures r == AvailabilityOf(snapshot, store.Contents(), hubId, day, serviceIds, now)
    {
      if hubId !in snapshot.hubs {
        return Err(HubNotFound);
      }
      var hub := snapshot.hubs[hubId].(id := hubId);
      var resolved := Catalog.ResolveServices(snapshot.services, serviceIds);
      if resolved.Err? {
        return Err(InvalidServices);
      }
      if day.None? {
        return Err(InvalidDate);
      }
      var minutes := Catalog.SumDuration(resolved.value);
      var duration := minutes * MINUTE;
      hide Catalog.Resolve, Snapshot.Valid, ReservationsIn, BookableBays, SomeBayUnclaimed, OpensAt, ClosesAt;
      var open, closing := OpensAt(hub, day.value), ClosesAt(hub, day.value);
      var bays := BookableBays(snapshot.bays, hubId);
      var reservations := store.Reservations(snapshot.bays, hubId, open, closing);

      var slots: seq<Slot> := [];
      var start := open;
      while start + duration <= closing
        invariant start == open + |slots| * SLOT_STEP
        invariant |slots| > 0 ==> open + (|slots| - 1) * SLOT_STEP + duration <= closing
        invariant forall k :: 0 <= k < |slots| ==>
          slots[k] == SlotAt(snapshot, store.Contents(), hub, day.value, duration, now, k)
        decreases closing - start - duration
      {
        var end := start + duration;
        var free := false;
        if start > now {
          free := AnyBayFree(bays, reservations, start, end);
        }
        slots := slots + [Slot(start, end, free)];
        start := start + SLOT_STEP;
      }
      SlotCountIsExact(open, closing, duration, |slots|);
      assert slots == AvailabilityOf(snapshot, store.Contents(), hubId, day, serviceIds, now).value;
      return Ok(slots);
    }
  }

  /** Exactly the starts open + 30k minutes that fit before closing are offered. */
  lemma SlotCountIsExact(open: int, closing: int, duration: int, n: nat)
    ensures (forall k: nat :: k < n ==> open + k * SLOT_STEP + duration <= closing)
            && open + n * SLOT_STEP + duration > closing
            ==> n == SlotCount(open, closing, duration)
    ensures n < SlotCount(open, closing, duration) <==> open + n * SLOT_STEP + duration <= closing
  {
    if n > 0 {
      assert (n - 1) * SLOT_STEP == n * SLOT_STEP - SLOT_STEP;
      assert (forall k: nat :: k < n ==> open + k * SLOT_STEP + duration <= closing) ==>
        open + (n - 1) * SLOT_STEP + duration <= closing;
    }
  }

  // --- Availability refines Book -----------------------------------------------

  lemma {:induction false} BookableBaysAre(catalog: seq<Bay>, hub: int, b: Bay)
    ensures b in BookableBays(catalog, hub) <==> b in catalog && b.hub == hub && b.available
  {
    if catalog != [] {
      BookableBaysAre(catalog[1..], hub, b);
      assert b in catalog <==> b == catalog[0] || b in catalog[1..];
    }
  }

  /** A reservation is listed exactly if a row of the hub holds its bay during opening hours. */
  lemma {:induction false} ReservationsAre(rows: seq<BayRow>, catalog: seq<Bay>, hub: int, from: int, to: int,
                                           bay: int, start: int, end: int)
    requires from <= start < end <= to && BayOfHub(catalog, bay, hub)
    ensures BayUnclaimed(ReservationsIn(rows, catalog, hub, from, to), bay, start, end)
       <==> forall i :: 0 <= i < |rows| ==> !Blocks(rows[i], bay, start, end)
  {
    if rows != [] {
      var n := |rows| - 1;
      ReservationsAre(rows[..n], catalog, hub, from, to, bay, start, end);
      var before := ReservationsIn(rows[..n], catalog, hub, from, to);
      var all := ReservationsIn(rows, catalog, hub, from, to);
      assert all == before || (all[|before|] == Reservation(rows[n].bay, rows[n].start, rows[n].end)
                               && forall i :: 0 <= i < |before| ==> all[i] == before[i]);
    }
  }

  lemma {:induction false} DurationIsPositive(services: seq<Catalog.CatalogService>)
    requires forall i :: 0 <= i < |services| ==> services[i].durationMinutes > 0
    ensures Catalog.TotalDuration(services) >= |services|
  {
    if services != [] {
      DurationIsPositive(services[..|services| - 1]);
    }
  }

  lemma ResolvedDurationIsPositive(snapshot: Snapshot, ids: seq<int>)
    requires snapshot.Valid() && Catalog.Resolve(snapshot.services, ids).Some?
    ensures Duration(Catalog.Resolve(snapshot.services, ids).value) > 0
  {
    var services := Catalog.Resolve(snapshot.services, ids).value;
    Catalog.FirstOccurrencesKeepsEachOnce(ids);
    var kept := Catalog.FirstOccurrences(ids);
    assert forall x :: x in ids ==> x in kept;
    assert ids[0] in kept;
    forall i | 0 <= i < |services| ensures services[i].durationMinutes > 0 {
      LookupIsARow(snapshot.services, Catalog.FirstOccurrences(ids)[i]);
    }
    DurationIsPositive(services);
  }

  lemma {:induction false} LookupIsARow(catalog: seq<Catalog.CatalogService>, id: int)
    requires id in Catalog.Ids(catalog)
    ensures Catalog.Lookup(catalog, id) in catalog && Catalog.Lookup(catalog, id).id == id
  {
    if catalog[0].id != id {
      Catalog.LookupFurther(catalog, id);
      LookupIsARow(catalog[1..], id);
    }
  }

  /** An instant within a day's opening hours has that day as its local date. */
  lemma OpenInstantIsThatDay(hub: Hub, day: int, instant: int)
    requires hub.Valid() && OpensAt(hub, day) <= instant < ClosesAt(hub, day)
    ensures LocalDay(hub, instant) == day
  {
    var rest := instant + hub.zoneOffset - day * DAY;
    assert 0 <= rest < DAY;
    assert (day * DAY + rest) / DAY == day;
  }

  /** FreeBay finds a bay exactly when anyBayFree does, though it looks at every
      reservation and anyBayFree only at those that overlap opening hours. */
  lemma FreeBayMatchesAnyBayFree(catalog: seq<Bay>, t: Tables, hub: int, from: int, to: int, start: int, end: int)
    requires from <= start < end <= to
    ensures var bays := BookableBays(catalog, hub);
      var reservations := ReservationsIn(t.bays, catalog, hub, from, to);
      FreeBay(catalog, t, hub, start, end).Some? <==> SomeBayUnclaimed(bays, reservations, start, end)
  {
    var bays := BookableBays(catalog, hub);
    var reservations := ReservationsIn(t.bays, catalog, hub, from, to);
    forall b | b in catalog && b.hub == hub && b.available
      ensures BayFree(t, b.id, start, end) <==> BayUnclaimed(reservations, b.id, start, end)
      ensures b in bays
    {
      ReservationsAre(t.bays, catalog, hub, from, to, b.id, start, end);
      BookableBaysAre(catalog, hub, b);
    }
    forall i | 0 <= i < |bays| ensures bays[i] in catalog && bays[i].hub == hub && bays[i].available {
      BookableBaysAre(catalog, hub, bays[i]);
    }
  }

  /** Booking an offered slot for one's own, idle vehicle succeeds exactly if the
      slot was shown as available. */
  lemma AvailabilityRefinesBook(snapshot: Snapshot, t: Tables, id: int, now: int, hubId: int, day: int,
                                serviceIds: seq<int>, caller: Caller, vehicle: int, k: nat)
    requires snapshot.Valid()
    requires AvailabilityOf(snapshot, t, hubId, Some(day), serviceIds, now).Ok?
    requires k < |AvailabilityOf(snapshot, t, hubId, Some(day), serviceIds, now).value|
    requires caller.customer.Some? && caller.vehicles.Some? && vehicle in caller.vehicles.value
    requires var slot := AvailabilityOf(snapshot, t, hubId, Some(day), serviceIds, now).value[k];
      !VehicleBusy(t, vehicle, slot.start, slot.end)
    ensures var slot := AvailabilityOf(snapshot, t, hubId, Some(day), serviceIds, now).value[k];
      var checked := Checked(snapshot, Request(hubId, vehicle, slot.start, serviceIds), now, caller);
      slot.available <==> checked.Ok? && BookTx(snapshot.bays, t, id, checked.value).Ok?
  {
    hide *;
    var slot := AvailabilityOf(snapshot, t, hubId, Some(day), serviceIds, now).value[k];
    var req := Request(hubId, vehicle, slot.start, serviceIds);
    OfferedMeans(snapshot, t, hubId, day, serviceIds, now);
    var services := Catalog.Resolve(snapshot.services, serviceIds).value;
    SlotsAre(snapshot, t, hubId, day, serviceIds, now);
    SlotIsInHours(snapshot, hubId, day, serviceIds, k, slot);
    ChecksInOrder(snapshot, req, now, caller, services);
    FreeBayMatchesAnyBayFree(snapshot.bays, t, hubId, OpensAt(snapshot.hubs[hubId], day),
                             ClosesAt(snapshot.hubs[hubId], day), slot.start, slot.end);
    if Checked(snapshot, req, now, caller).Ok? {
      TurnedAwayOrCommitted(snapshot.bays, t, id, Checked(snapshot, req, now, caller).value);
    }
  }

  lemma OfferedMeans(snapshot: Snapshot, t: Tables, hubId: int, day: int, ids: seq<int>, now: int)
    requires AvailabilityOf(snapshot, t, hubId, Some(day), ids, now).Ok?
    ensures hubId in snapshot.hubs && Catalog.Resolve(snapshot.services, ids).Some?
  {
    hide Catalog.Resolve, SlotCount, Duration;
  }

  /** An offered slot lies in the opening hours. */
  lemma SlotIsInHours(snapshot: Snapshot, hubId: int, day: int, ids: seq<int>, k: nat, slot: Slot)
    requires snapshot.Valid() && hubId in snapshot.hubs && Catalog.Resolve(snapshot.services, ids).Some?
    requires var hub, duration := snapshot.hubs[hubId], Duration(Catalog.Resolve(snapshot.services, ids).value);
      && k < SlotCount(OpensAt(hub, day), ClosesAt(hub, day), duration)
      && slot.start == OpensAt(hub, day) + k * SLOT_STEP && slot.end == slot.start + duration
    ensures InOpeningHours(snapshot.hubs[hubId], slot.start, slot.end)
    ensures OpensAt(snapshot.hubs[hubId], day) <= slot.start < slot.end <= ClosesAt(snapshot.hubs[hubId], day)
  {
    var hub, duration := snapshot.hubs[hubId], Duration(Catalog.Resolve(snapshot.services, ids).value);
    assert hub.Valid();
    ResolvedDurationIsPositive(snapshot, ids);
    hide Snapshot.Valid, Catalog.Resolve, Duration, SlotCount, InOpeningHours, LocalDay;
    SlotCountIsExact(OpensAt(hub, day), ClosesAt(hub, day), duration, k);
    OpenInstantIsThatDay(hub, day, slot.start);
    HoursOnTheClock(hub, slot.start, slot.end);
  }

  /** The offered slots, one by one. */
  lemma SlotsAre(snapshot: Snapshot, t: Tables, hubId: int, day: int, ids: seq<int>, now: int)
    requires hubId in snapshot.hubs && Catalog.Resolve(snapshot.services, ids).Some?
    ensures AvailabilityOf(snapshot, t, hubId, Some(day), ids, now).Ok?
    ensures var slots := AvailabilityOf(snapshot, t, hubId, Some(day), ids, now).value;
      var hub, duration := snapshot.hubs[hubId], Duration(Catalog.Resolve(snapshot.services, ids).value);
      var open, closing := OpensAt(hub, day), ClosesAt(hub, day);
      var bays := BookableBays(snapshot.bays, hubId);
      var reservations := ReservationsIn(t.bays, snapshot.bays, hubId, open, closing);
      && |slots| == SlotCount(open, closing, duration)
      && forall k :: 0 <= k < |slots| ==>
           && slots[k].start == open + k * SLOT_STEP && slots[k].end == slots[k].start + duration
           && slots[k].available
              == (slots[k].start > now && SomeBayUnclaimed(bays, reservations, slots[k].start, slots[k].end))
  {
    hide Catalog.Resolve, BookableBays, ReservationsIn, SomeBayUnclaimed, SlotCount, Duration;
  }
}
