/** scheduler-service's booking tables and the statements that write them.

    A row of an append-only table is known by its position. Each statement is a
    function from tables to tables; StoredTables runs the same statements in
    place. */
module AppointmentTables {
  import opened Prelude
  import opened SchedulerMoney

  datatype AppointmentStatus = Booked | CheckedIn | InProgress | Completed | Cancelled | NoShow

  datatype BayStatus = Reserved | Occupied | Released | BayCancelled

  datatype LineStatus = Pending | Started | Done | LineCancelled

  datatype AppointmentRow = AppointmentRow(
    hub: int, customer: int, start: int, end: int, status: AppointmentStatus, total: real)

  datatype VehicleRow = VehicleRow(appointment: int, vehicle: int)

  datatype BayRow = BayRow(appointment: int, bay: int, start: int, end: int, status: BayStatus)

  datatype LineRow = LineRow(appointment: int, service: int, fee: real, status: LineStatus)

  datatype Topic = AppointmentBooked | AppointmentCancelled | ServiceCompleted

  /** An outbox row; its key is the appointment's id. */
  datatype Message = Message(topic: Topic, key: int)

  datatype Tables = Tables(
    appointments: map<int, AppointmentRow>,
    vehicles: seq<VehicleRow>,
    bays: seq<BayRow>,
    lines: seq<LineRow>,
    outbox: seq<Message>)

  /** A service bay of the catalog snapshot, which is kept in order of code. */
  datatype Bay = Bay(id: int, hub: int, available: bool)

  /** A booking that passed the checks made before the transaction. */
  datatype Booking = Booking(
    hub: int, customer: int, vehicle: int, start: int, end: int, services: seq<BookedService>)

  const EMPTY := Tables(map[], [], [], [], [])

  // --- Reading -------------------------------------------------------------

  predicate Live(status: AppointmentStatus) {
    status in {Booked, CheckedIn, InProgress}
  }

  /** tstzrange(s, e, '[)') && tstzrange(s', e', '[)'): an empty range overlaps nothing. */
  predicate Overlaps(s: int, e: int, s': int, e': int) {
    s < e && s' < e' && s < e' && s' < e
  }

  /** Row i keeps the vehicle busy for part of [start, end). */
  predicate Occupies(t: Tables, i: int, vehicle: int, start: int, end: int)
    requires 0 <= i < |t.vehicles|
  {
    && t.vehicles[i].vehicle == vehicle
    && t.vehicles[i].appointment in t.appointments
    && var a := t.appointments[t.vehicles[i].appointment];
       Live(a.status) && Overlaps(a.start, a.end, start, end)
  }

  predicate VehicleBusy(t: Tables, vehicle: int, start: int, end: int) {
    exists i :: 0 <= i < |t.vehicles| && Occupies(t, i, vehicle, start, end)
  }

  /** Row r holds the bay for part of [start, end). */
  predicate Blocks(r: BayRow, bay: int, start: int, end: int) {
    r.bay == bay && r.status != BayCancelled && Overlaps(r.start, r.end, start, end)
  }

  predicate BayFree(t: Tables, bay: int, start: int, end: int) {
    forall i :: 0 <= i < |t.bays| ==> !Blocks(t.bays[i], bay, start, end)
  }

  /** The first bay by code that is free, if any. */
  function FreeBay(bays: seq<Bay>, t: Tables, hub: int, start: int, end: int): (r: Option<int>)
    ensures r.Some? ==> BayFree(t, r.value, start, end) && BayOfHub(bays, r.value, hub)
    ensures r.None? <==> forall b :: b in bays && b.hub == hub && b.available ==> !BayFree(t, b.id, start, end)
  {
    if bays == [] then None
    else if bays[0].hub == hub && bays[0].available && BayFree(t, bays[0].id, start, end) then Some(bays[0].id)
    else
      assert forall b :: b in bays <==> b == bays[0] || b in bays[1..];
      FreeBay(bays[1..], t, hub, start, end)
  }

  predicate BayOfHub(bays: seq<Bay>, bay: int, hub: int) {
    exists b :: b in bays && b.id == bay && b.hub == hub
  }

  // --- Writing -------------------------------------------------------------

  /** The four inserts of a booking, under the appointment's new id. */
  function InsertAppointment(t: Tables, id: int, b: Booking, bay: int): Tables {
    var row := AppointmentRow(b.hub, b.customer, b.start, b.end, Booked, Total(b.services));
    t.(appointments := t.appointments[id := row],
       vehicles := t.vehicles + [VehicleRow(id, b.vehicle)],
       bays := t.bays + [BayRow(id, bay, b.start, b.end, Reserved)],
       lines := t.lines + NewLines(id, b.services))
  }

  function NewLines(id: int, services: seq<BookedService>): (r: seq<LineRow>)
  {
    seq(|services|, i requires 0 <= i < |services| => LineRow(id, services[i].serviceId, services[i].fee, Pending))
  }

  function WithStatus(appointments: map<int, AppointmentRow>, id: int, status: AppointmentStatus):
    map<int, AppointmentRow>
    requires id in appointments
  {
    appointments[id := appointments[id].(status := status)]
  }

  /** UPDATE appointment_bay SET status = 'CANCELLED' WHERE appointment_id = id. */
  function CancelBays(bays: seq<BayRow>, id: int): seq<BayRow> {
    seq(|bays|, i requires 0 <= i < |bays| =>
      if bays[i].appointment == id then bays[i].(status := BayCancelled) else bays[i])
  }

  function CancelLines(lines: seq<LineRow>, id: int): seq<LineRow> {
    seq(|lines|, i requires 0 <= i < |lines| =>
      if lines[i].appointment == id then lines[i].(status := LineCancelled) else lines[i])
  }

  /** A completed appointment's bay row is RELEASED, which still blocks its slot. */
  function ReleaseBays(bays: seq<BayRow>, id: int): seq<BayRow> {
    seq(|bays|, i requires 0 <= i < |bays| =>
      if bays[i].appointment == id && bays[i].status in {Reserved, Occupied} then bays[i].(status := Released)
      else bays[i])
  }

  function FinishLines(lines: seq<LineRow>, id: int): seq<LineRow> {
    seq(|lines|, i requires 0 <= i < |lines| =>
      if lines[i].appointment == id && lines[i].status != LineCancelled then lines[i].(status := Done) else lines[i])
  }

  function WithMessage(t: Tables, topic: Topic, id: int): Tables {
    t.(outbox := t.outbox + [Message(topic, id)])
  }

  /** What a committed booking transaction leaves. */
  function CommitBooking(t: Tables, id: int, b: Booking, bay: int): Tables {
    WithMessage(InsertAppointment(t, id, b, bay), AppointmentBooked, id)
  }

  /** What a committed cancellation leaves, once its conditional update matched. */
  function CommitCancel(t: Tables, id: int): Tables
    requires id in t.appointments
  {
    WithMessage(t.(appointments := WithStatus(t.appointments, id, Cancelled),
                   bays := CancelBays(t.bays, id),
                   lines := CancelLines(t.lines, id)), AppointmentCancelled, id)
  }

  /** What a committed completion leaves, once its conditional update matched. */
  function CommitComplete(t: Tables, id: int): Tables
    requires id in t.appointments
  {
    WithMessage(t.(appointments := WithStatus(t.appointments, id, Completed),
                   bays := ReleaseBays(t.bays, id),
                   lines := FinishLines(t.lines, id)), ServiceCompleted, id)
  }

  // --- What every committed state keeps --------------------------------------

  predicate RowsDisjoint(r: BayRow, r': BayRow) {
    r.status != BayCancelled && r'.status != BayCancelled && r.bay == r'.bay ==>
      !Overlaps(r.start, r.end, r'.start, r'.end)
  }

  predicate AppointmentsDisjoint(a: AppointmentRow, b: AppointmentRow) {
    Live(a.status) && Live(b.status) ==> !Overlaps(a.start, a.end, b.start, b.end)
  }

  ghost predicate BaysDisjoint(bays: seq<BayRow>) {
    forall i, j :: 0 <= i < j < |bays| ==> RowsDisjoint(bays[i], bays[j])
  }

  ghost predicate VehiclesDisjoint(t: Tables) {
    forall i, j :: 0 <= i < j < |t.vehicles| ==>
      var r, r' := t.vehicles[i], t.vehicles[j];
      r.appointment in t.appointments && r'.appointment in t.appointments && r.vehicle == r'.vehicle ==>
        AppointmentsDisjoint(t.appointments[r.appointment], t.appointments[r'.appointment])
  }

  predicate BayAgrees(status: AppointmentStatus, bay: BayStatus) {
    match status
    case Booked => bay == Reserved
    case CheckedIn | InProgress => bay == Reserved || bay == Occupied
    case Completed => bay == Released
    case Cancelled => bay == BayCancelled
    case NoShow => true
  }

  predicate LineAgrees(status: AppointmentStatus, line: LineStatus) {
    match status
    case Booked => line == Pending
    case CheckedIn | InProgress => line != LineCancelled
    case Completed => line == Done
    case Cancelled => line == LineCancelled
    case NoShow => true
  }

  ghost predicate BaysInStep(t: Tables) {
    forall i :: 0 <= i < |t.bays| ==>
      && t.bays[i].appointment in t.appointments
      && var a := t.appointments[t.bays[i].appointment];
         BayAgrees(a.status, t.bays[i].status) && t.bays[i].start == a.start && t.bays[i].end == a.end
  }

  ghost predicate LinesInStep(t: Tables) {
    forall i :: 0 <= i < |t.lines| ==>
      && t.lines[i].appointment in t.appointments
      && LineAgrees(t.appointments[t.lines[i].appointment].status, t.lines[i].status)
  }

  ghost predicate HasItsRows(t: Tables, id: int) {
    && (exists i :: 0 <= i < |t.bays| && t.bays[i].appointment == id)
    && (exists i :: 0 <= i < |t.vehicles| && t.vehicles[i].appointment == id)
  }

  /** Every appointment has its one bay row and its one vehicle row. */
  ghost predicate OneRowEach(t: Tables) {
    && (forall id :: id in t.appointments ==> HasItsRows(t, id))
    && (forall i, j :: 0 <= i < j < |t.bays| ==> t.bays[i].appointment != t.bays[j].appointment)
    && (forall i, j :: 0 <= i < j < |t.vehicles| ==> t.vehicles[i].appointment != t.vehicles[j].appointment)
    && (forall i :: 0 <= i < |t.vehicles| ==> t.vehicles[i].appointment in t.appointments)
  }

  ghost function Count(t: Tables, topic: Topic, id: int): nat {
    multiset(t.outbox)[Message(topic, id)]
  }

  /** The outbox holds one Booked per appointment, and exactly the terminal event its status calls for. */
  ghost predicate OutboxMatches(t: Tables) {
    && (forall id :: id in t.appointments ==>
         && Count(t, AppointmentBooked, id) == 1
         && Count(t, AppointmentCancelled, id) == (if t.appointments[id].status == Cancelled then 1 else 0)
         && Count(t, ServiceCompleted, id) == (if t.appointments[id].status == Completed then 1 else 0))
    && (forall m :: m in t.outbox ==> m.key in t.appointments)
  }

  ghost predicate Consistent(t: Tables) {
    && BaysDisjoint(t.bays)
    && VehiclesDisjoint(t)
    && BaysInStep(t)
    && LinesInStep(t)
    && OneRowEach(t)
    && OutboxMatches(t)
  }

  /** A booking may commit under a new id if its vehicle is not busy and its bay is free. */
  ghost predicate MayBook(t: Tables, id: int, b: Booking, bay: int) {
    && id !in t.appointments
    && !VehicleBusy(t, b.vehicle, b.start, b.end)
    && BayFree(t, bay, b.start, b.end)
  }

  lemma BookingKeepsConsistent(t: Tables, id: int, b: Booking, bay: int)
    requires Consistent(t) && MayBook(t, id, b, bay)
    ensures Consistent(CommitBooking(t, id, b, bay))
  {
    var t' := CommitBooking(t, id, b, bay);
    BookingKeepsDisjoint(t, id, b, bay);
    BookingKeepsRows(t, id, b, bay);
    assert BaysInStep(t');
    assert LinesInStep(t');
    assert OutboxMatches(t') by {
      assert Message(AppointmentBooked, id) !in t.outbox && Message(AppointmentCancelled, id) !in t.outbox
        && Message(ServiceCompleted, id) !in t.outbox;
      forall k | k in t.appointments
        ensures Count(t', AppointmentBooked, k) == Count(t, AppointmentBooked, k)
        ensures Count(t', AppointmentCancelled, k) == Count(t, AppointmentCancelled, k)
        ensures Count(t', ServiceCompleted, k) == Count(t, ServiceCompleted, k)
      {
      }
    }
  }

  lemma BookingKeepsDisjoint(t: Tables, id: int, b: Booking, bay: int)
    requires BaysDisjoint(t.bays) && VehiclesDisjoint(t) && OneRowEach(t) && MayBook(t, id, b, bay)
    ensures BaysDisjoint(CommitBooking(t, id, b, bay).bays)
    ensures VehiclesDisjoint(CommitBooking(t, id, b, bay))
  {
    var t' := CommitBooking(t, id, b, bay);
    assert forall i :: 0 <= i < |t.bays| ==> t'.bays[i] == t.bays[i] && !Blocks(t.bays[i], bay, b.start, b.end);
    assert forall i :: 0 <= i < |t.vehicles| ==>
      t'.vehicles[i] == t.vehicles[i] && !Occupies(t, i, b.vehicle, b.start, b.end);
  }

  lemma BookingKeepsRows(t: Tables, id: int, b: Booking, bay: int)
    requires OneRowEach(t) && BaysInStep(t) && MayBook(t, id, b, bay)
    ensures OneRowEach(CommitBooking(t, id, b, bay))
  {
    var t' := CommitBooking(t, id, b, bay);
    assert t'.bays[|t.bays|].appointment == id && t'.vehicles[|t.vehicles|].appointment == id;
    forall k | k in t'.appointments ensures HasItsRows(t', k) {
      if k != id {
        assert HasItsRows(t, k);
        var i :| 0 <= i < |t.bays| && t.bays[i].appointment == k;
        assert t'.bays[i].appointment == k;
        var j :| 0 <= j < |t.vehicles| && t.vehicles[j].appointment == k;
        assert t'.vehicles[j].appointment == k;
      }
    }
  }

  lemma CancelKeepsConsistent(t: Tables, id: int)
    requires Consistent(t) && id in t.appointments && t.appointments[id].status == Booked
    ensures Consistent(CommitCancel(t, id))
  {
    var t' := CommitCancel(t, id);
    ClosingKeepsRows(t, t');
    ClosingKeepsDisjoint(t, t', id);
    StatusesStayInStep(t, id);
    hide BaysInStep, LinesInStep, OneRowEach;
    ClosingMatchesOutbox(t, t', AppointmentCancelled, id);
  }

  lemma CompleteKeepsConsistent(t: Tables, id: int)
    requires Consistent(t) && id in t.appointments && Live(t.appointments[id].status)
    ensures Consistent(CommitComplete(t, id))
  {
    var t' := CommitComplete(t, id);
    ClosingKeepsRows(t, t');
    ClosingKeepsDisjoint(t, t', id);
    StatusesStayInStep(t, id);
    hide BaysInStep, LinesInStep, OneRowEach;
    ClosingMatchesOutbox(t, t', ServiceCompleted, id);
  }

  lemma StatusesStayInStep(t: Tables, id: int)
    requires BaysInStep(t) && LinesInStep(t) && id in t.appointments
    ensures t.appointments[id].status == Booked ==>
      BaysInStep(CommitCancel(t, id)) && LinesInStep(CommitCancel(t, id))
    ensures Live(t.appointments[id].status) ==>
      BaysInStep(CommitComplete(t, id)) && LinesInStep(CommitComplete(t, id))
  {
  }

  /** A bay row after an update that leaves cancelled rows cancelled. */
  predicate SameSlot(r: BayRow, r': BayRow) {
    && r'.appointment == r.appointment && r'.bay == r.bay && r'.start == r.start && r'.end == r.end
    && (r.status == BayCancelled ==> r'.status == BayCancelled)
  }

  lemma ClosingKeepsDisjoint(t: Tables, t': Tables, id: int)
    requires BaysDisjoint(t.bays) && VehiclesDisjoint(t)
    requires |t'.bays| == |t.bays| && forall i :: 0 <= i < |t.bays| ==> SameSlot(t.bays[i], t'.bays[i])
    requires t'.vehicles == t.vehicles && id in t.appointments
    requires exists s :: !Live(s) && t'.appointments == WithStatus(t.appointments, id, s)
    ensures BaysDisjoint(t'.bays) && VehiclesDisjoint(t')
  {
    forall i, j | 0 <= i < j < |t'.bays| ensures RowsDisjoint(t'.bays[i], t'.bays[j]) {
      assert RowsDisjoint(t.bays[i], t.bays[j]) && SameSlot(t.bays[i], t'.bays[i]) && SameSlot(t.bays[j], t'.bays[j]);
    }
  }

  lemma ClosingMatchesOutbox(t: Tables, t': Tables, topic: Topic, id: int)
    requires OutboxMatches(t) && id in t.appointments && Live(t.appointments[id].status)
    requires topic == AppointmentCancelled || topic == ServiceCompleted
    requires t'.outbox == t.outbox + [Message(topic, id)]
    requires t'.appointments
          == WithStatus(t.appointments, id, if topic == AppointmentCancelled then Cancelled else Completed)
    ensures OutboxMatches(t')
  {
    forall k | k in t'.appointments
      ensures Count(t', AppointmentBooked, k) == 1
      ensures Count(t', AppointmentCancelled, k) == (if t'.appointments[k].status == Cancelled then 1 else 0)
      ensures Count(t', ServiceCompleted, k) == (if t'.appointments[k].status == Completed then 1 else 0)
    {
      assert k in t.appointments;
    }
  }

  lemma ClosingKeepsRows(t: Tables, t': Tables)
    requires OneRowEach(t) && t'.appointments.Keys == t.appointments.Keys && t'.vehicles == t.vehicles
    requires |t'.bays| == |t.bays| && forall i :: 0 <= i < |t.bays| ==> t'.bays[i].appointment == t.bays[i].appointment
    ensures OneRowEach(t')
  {
    forall k | k in t'.appointments ensures HasItsRows(t', k) {
      assert HasItsRows(t, k);
      var i :| 0 <= i < |t.bays| && t.bays[i].appointment == k;
      assert t'.bays[i].appointment == k;
    }
  }
}
