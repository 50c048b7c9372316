/** Any number of Book, Cancel and Complete calls, interleaved statement by
    statement at READ COMMITTED.

    A call that must wait (for the vehicle's advisory lock, for a row lock, or
    for a conflicting uncommitted write that the exclusion constraint has to
    see decided) stays where it is. Uncommitted writes are visible to nobody
    and to no query; only locks and the exclusion constraint know of them. */
module BookingRuns {
  import opened Prelude
  import opened SchedulerMoney
  import opened AppointmentTables

  /** The catalog's bays, and hashtext: two vehicles may share a lock. */
  datatype Site = Site(bays: seq<Bay>, lockKey: int -> int)

  datatype Call =
    | Book(booking: Booking)
    | Cancel(id: int, customer: int, now: int)
    | Complete(id: int, currency: string)

  /** How far a call has come. Checked states act on a read that may be stale by now. */
  datatype Tx =
    | BookStarted(booking: Booking)
    | BookLocked(booking: Booking)
    | BookVehicleFree(booking: Booking)
    | BookBayPicked(booking: Booking, bay: int)
    | BookInserted(booking: Booking, bay: int, id: int)
    | BookDone(id: int)
    | CancelChecked(id: int)
    | CancelUpdated(id: int)
    | CancelDone(id: int)
    | CompleteChecked(id: int)
    | CompleteUpdated(id: int)
    | CompleteDone(id: int)
    | Failed

  datatype System = System(tables: Tables, nextId: int, txs: map<int, Tx>)

  datatype Action = Start(t: int, call: Call) | Advance(t: int) | Rollback(t: int)

  const INITIAL := System(EMPTY, 1, map[])

  predicate HoldsVehicleLock(x: Tx) {
    x.BookLocked? || x.BookVehicleFree? || x.BookBayPicked? || x.BookInserted?
  }

  predicate HoldsRowLock(x: Tx, id: int) {
    (x.CancelUpdated? || x.CompleteUpdated?) && x.id == id
  }

  predicate VehicleLocked(site: Site, s: System, t: int, vehicle: int) {
    exists u :: u in s.txs && u != t && HoldsVehicleLock(s.txs[u])
             && site.lockKey(s.txs[u].booking.vehicle) == site.lockKey(vehicle)
  }

  predicate RowLocked(s: System, t: int, id: int) {
    exists u :: u in s.txs && u != t && HoldsRowLock(s.txs[u], id)
  }

  predicate HasBlockingRow(tables: Tables, id: int, bay: int, start: int, end: int) {
    exists i :: 0 <= i < |tables.bays| && tables.bays[i].appointment == id && Blocks(tables.bays[i], bay, start, end)
  }

  /** x has an uncommitted write that decides whether the slot is taken. */
  predicate Undecided(tables: Tables, x: Tx, bay: int, start: int, end: int) {
    || (x.BookInserted? && x.bay == bay && Overlaps(x.booking.start, x.booking.end, start, end))
    || (x.CancelUpdated? && HasBlockingRow(tables, x.id, bay, start, end))
  }

  predicate SlotUndecided(s: System, t: int, bay: int, start: int, end: int) {
    exists u :: u in s.txs && u != t && Undecided(s.tables, s.txs[u], bay, start, end)
  }

  predicate FeesConvert(tables: Tables, id: int, currency: string) {
    forall i :: 0 <= i < |tables.lines| && tables.lines[i].appointment == id ==>
      ToMinor(tables.lines[i].fee, currency).Ok?
  }

  /** The read and the checks each call makes before its transaction. */
  function FirstRead(s: System, call: Call): Tx {
    match call
    case Book(b) => if b.start < b.end then BookStarted(b) else Failed
    case Cancel(id, customer, now) =>
      if id in s.tables.appointments && s.tables.appointments[id].customer == customer
        && s.tables.appointments[id].status == Booked && now < s.tables.appointments[id].start
      then CancelChecked(id) else Failed
    case Complete(id, currency) =>
      if id in s.tables.appointments && FeesConvert(s.tables, id, currency) then CompleteChecked(id) else Failed
  }

  /** One statement of call t, or nothing while it has to wait. */
  function Statement(site: Site, s: System, t: int): System
    requires t in s.txs
  {
    match s.txs[t]
    case BookStarted(b) =>
      if VehicleLocked(site, s, t, b.vehicle) then s else Now(s, t, BookLocked(b))
    case BookLocked(b) =>
      Now(s, t, if VehicleBusy(s.tables, b.vehicle, b.start, b.end) then Failed else BookVehicleFree(b))
    case BookVehicleFree(b) =>
      var bay := FreeBay(site.bays, s.tables, b.hub, b.start, b.end);
      Now(s, t, if bay.None? then Failed else BookBayPicked(b, bay.value))
    case BookBayPicked(b, bay) =>
      if SlotUndecided(s, t, bay, b.start, b.end) then s
      else if !BayFree(s.tables, bay, b.start, b.end) then Now(s, t, Failed)
      else Now(s, t, BookInserted(b, bay, s.nextId)).(nextId := s.nextId + 1)
    case BookInserted(b, bay, id) =>
      Now(s, t, BookDone(id)).(tables := CommitBooking(s.tables, id, b, bay))
    case CancelChecked(id) =>
      if RowLocked(s, t, id) then s
      else Now(s, t, if id in s.tables.appointments && s.tables.appointments[id].status == Booked
                     then CancelUpdated(id) else Failed)
    case CancelUpdated(id) =>
      if id !in s.tables.appointments then s
      else Now(s, t, CancelDone(id)).(tables := CommitCancel(s.tables, id))
    case CompleteChecked(id) =>
      if RowLocked(s, t, id) then s
      else Now(s, t, if id in s.tables.appointments && Live(s.tables.appointments[id].status)
                     then CompleteUpdated(id) else Failed)
    case CompleteUpdated(id) =>
      if id !in s.tables.appointments then s
      else Now(s, t, CompleteDone(id)).(tables := CommitComplete(s.tables, id))
    case BookDone(_) | CancelDone(_) | CompleteDone(_) | Failed => s
  }

  function Now(s: System, t: int, x: Tx): System {
    s.(txs := s.txs[t := x])
  }

  predicate Finished(x: Tx) {
    x.BookDone? || x.CancelDone? || x.CompleteDone? || x.Failed?
  }

  function Exec(site: Site, s: System, a: Action): System {
    match a
    case Start(t, call) => if t in s.txs then s else Now(s, t, FirstRead(s, call))
    case Advance(t) => if t in s.txs then Statement(site, s, t) else s
    case Rollback(t) => if t in s.txs && !Finished(s.txs[t]) then Now(s, t, Failed) else s
  }

  function Run(site: Site, s: System, actions: seq<Action>): System
    decreases |actions|
  {
    if actions == [] then s else Run(site, Exec(site, s, actions[0]), actions[1..])
  }

  // --- The invariant ---------------------------------------------------------

  /** What call x has established stays true while it runs. */
  ghost predicate TxOk(site: Site, s: System, x: Tx) {
    match x
    case BookStarted(b) => b.start < b.end
    case BookLocked(b) => b.start < b.end
    case BookVehicleFree(b) => b.start < b.end && !VehicleBusy(s.tables, b.vehicle, b.start, b.end)
    case BookBayPicked(b, bay) =>
      && b.start < b.end && !VehicleBusy(s.tables, b.vehicle, b.start, b.end) && BayOfHub(site.bays, bay, b.hub)
    case BookInserted(b, bay, id) =>
      b.start < b.end && MayBook(s.tables, id, b, bay) && id < s.nextId && BayOfHub(site.bays, bay, b.hub)
    case BookDone(id) => id in s.tables.appointments
    case CancelUpdated(id) => id in s.tables.appointments && s.tables.appointments[id].status == Booked
    case CancelDone(id) => id in s.tables.appointments && s.tables.appointments[id].status == Cancelled
    case CompleteUpdated(id) => id in s.tables.appointments && Live(s.tables.appointments[id].status)
    case CompleteDone(id) => id in s.tables.appointments && s.tables.appointments[id].status == Completed
    case CancelChecked(_) | CompleteChecked(_) | Failed => true
  }

  predicate Closes(x: Tx) {
    x.CancelUpdated? || x.CancelDone? || x.CompleteUpdated? || x.CompleteDone?
  }

  /** What keeps two calls out of each other's way. */
  predicate PairOk(site: Site, x: Tx, y: Tx) {
    && (HoldsVehicleLock(x) && HoldsVehicleLock(y) ==>
         site.lockKey(x.booking.vehicle) != site.lockKey(y.booking.vehicle))
    && (x.BookInserted? && y.BookInserted? ==>
         && x.id != y.id
         && !(x.bay == y.bay && Overlaps(x.booking.start, x.booking.end, y.booking.start, y.booking.end)))
    && (Closes(x) && Closes(y) ==> x.id != y.id)
  }

  ghost predicate RowsKnown(site: Site, t: Tables) {
    forall i :: 0 <= i < |t.bays| && t.bays[i].appointment in t.appointments ==>
      BayOfHub(site.bays, t.bays[i].bay, t.appointments[t.bays[i].appointment].hub)
  }

  ghost predicate Inv(site: Site, s: System) {
    && Consistent(s.tables)
    && RowsKnown(site, s.tables)
    && (forall id :: id in s.tables.appointments ==> id < s.nextId)
    && (forall t :: t in s.txs ==> TxOk(site, s, s.txs[t]))
    && (forall t, u :: t in s.txs && u in s.txs && t != u ==> PairOk(site, s.txs[t], s.txs[u]))
  }

  lemma InitialInv(site: Site)
    ensures Inv(site, INITIAL)
  {
  }

  /** A step that only moves call t keeps the invariant if t's new state is in order. */
  lemma MovingKeepsInv(site: Site, s: System, t: int, x: Tx)
    requires Inv(site, s) && TxOk(site, s, x)
    requires forall u :: u in s.txs && u != t ==> PairOk(site, x, s.txs[u]) && PairOk(site, s.txs[u], x)
    ensures Inv(site, Now(s, t, x))
  {
    hide Consistent, RowsKnown;
    var s' := Now(s, t, x);
    forall u | u in s'.txs ensures TxOk(site, s', s'.txs[u]) {
      assert TxOk(site, s, s'.txs[u]);
    }
  }

  lemma InsertingKeepsInv(site: Site, s: System, t: int)
    requires Inv(site, s) && t in s.txs && s.txs[t].BookBayPicked?
    ensures Inv(site, Statement(site, s, t))
  {
    hide Consistent, RowsKnown, VehicleBusy;
    var BookBayPicked(b, bay) := s.txs[t];
    assert TxOk(site, s, s.txs[t]);
    if SlotUndecided(s, t, bay, b.start, b.end) {
    } else if !BayFree(s.tables, bay, b.start, b.end) {
      MovingKeepsInv(site, s, t, Failed);
    } else {
      var wider := s.(nextId := s.nextId + 1);
      forall u | u in s.txs ensures TxOk(site, wider, s.txs[u]) {
        assert TxOk(site, s, s.txs[u]);
      }
      var x := BookInserted(b, bay, s.nextId);
      forall u | u in s.txs && u != t ensures PairOk(site, x, s.txs[u]) && PairOk(site, s.txs[u], x) {
        assert PairOk(site, s.txs[t], s.txs[u]) && PairOk(site, s.txs[u], s.txs[t]);
        assert TxOk(site, s, s.txs[u]) && !Undecided(s.tables, s.txs[u], bay, b.start, b.end);
      }
      MovingKeepsInv(site, wider, t, x);
    }
  }

  /** A committed booking disturbs no other call: its vehicle and its slot were locked for it. */
  lemma BookingCommitKeepsOthers(site: Site, s: System, t: int, y: Tx)
    requires t in s.txs && s.txs[t].BookInserted? && TxOk(site, s, s.txs[t])
    requires OneRowEach(s.tables)
    requires TxOk(site, s, y) && PairOk(site, s.txs[t], y)
    ensures TxOk(site, Statement(site, s, t), y)
  {
    var BookInserted(b, bay, id) := s.txs[t];
    var tables, tables' := s.tables, CommitBooking(s.tables, id, b, bay);
    assert forall i :: 0 <= i < |tables.vehicles| ==> tables'.vehicles[i] == tables.vehicles[i];
    assert forall i :: 0 <= i < |tables.bays| ==> tables'.bays[i] == tables.bays[i];
    if y.BookVehicleFree? || y.BookBayPicked? || y.BookInserted? {
      var c := y.booking;
      forall i | 0 <= i < |tables'.vehicles| ensures !Occupies(tables', i, c.vehicle, c.start, c.end) {
        if i < |tables.vehicles| {
          assert !Occupies(tables, i, c.vehicle, c.start, c.end);
        }
      }
    }
  }

  lemma BookingKeepsRowsKnown(site: Site, t: Tables, id: int, b: Booking, bay: int)
    requires RowsKnown(site, t) && OneRowEach(t) && BaysInStep(t)
    requires id !in t.appointments && BayOfHub(site.bays, bay, b.hub)
    ensures RowsKnown(site, CommitBooking(t, id, b, bay))
  {
    var t' := CommitBooking(t, id, b, bay);
    hide BayOfHub, HasItsRows;
    forall i | 0 <= i < |t'.bays| && t'.bays[i].appointment in t'.appointments
      ensures BayOfHub(site.bays, t'.bays[i].bay, t'.appointments[t'.bays[i].appointment].hub)
    {
      assert i < |t.bays| ==> t'.bays[i] == t.bays[i] && t.bays[i].appointment in t.appointments;
    }
  }

  /** The commit of a booking. */
  lemma BookingIs(site: Site, s: System, t: int)
    requires t in s.txs && s.txs[t].BookInserted? && TxOk(site, s, s.txs[t])
    ensures var BookInserted(b, bay, id) := s.txs[t]; var s' := Statement(site, s, t);
      && MayBook(s.tables, id, b, bay) && BayOfHub(site.bays, bay, b.hub)
      && id < s.nextId && id !in s.tables.appointments
      && s' == s.(tables := CommitBooking(s.tables, id, b, bay), txs := s.txs[t := BookDone(id)])
      && s'.tables.appointments.Keys == s.tables.appointments.Keys + {id}
  {
    hide VehicleBusy, BayFree, BayOfHub;
  }

  lemma DoneKeepsPairs(site: Site, s: System, t: int, id: int)
    requires t in s.txs
    requires forall u, w :: u in s.txs && w in s.txs && u != w ==> PairOk(site, s.txs[u], s.txs[w])
    ensures var txs := s.txs[t := BookDone(id)];
      forall u, w :: u in txs && w in txs && u != w ==> PairOk(site, txs[u], txs[w])
  {
    var txs := s.txs[t := BookDone(id)];
    forall u, w | u in txs && w in txs && u != w ensures PairOk(site, txs[u], txs[w]) {
      assert PairOk(site, s.txs[u], s.txs[w]);
    }
  }

  lemma BookingCommitKeepsInv(site: Site, s: System, t: int)
    requires Inv(site, s) && t in s.txs && s.txs[t].BookInserted?
    ensures Inv(site, Statement(site, s, t))
  {
    hide Consistent, RowsKnown, TxOk, PairOk, Statement, CommitBooking, MayBook, OneRowEach, BayOfHub, BaysInStep;
    var BookInserted(b, bay, id) := s.txs[t];
    var s' := Statement(site, s, t);
    assert TxOk(site, s, s.txs[t]);
    BookingIs(site, s, t);
    BookingKeepsConsistent(s.tables, id, b, bay);
    ConsistentHasRows(s.tables);
    BookingKeepsRowsKnown(site, s.tables, id, b, bay);
    DoneKeepsPairs(site, s, t, id);
    forall u | u in s'.txs ensures TxOk(site, s', s'.txs[u]) {
      if u != t {
        assert TxOk(site, s, s.txs[u]) && PairOk(site, s.txs[t], s.txs[u]);
        BookingCommitKeepsOthers(site, s, t, s.txs[u]);
      } else {
        DoneIsOk(site, s', BookDone(id));
      }
    }
  }

  lemma ConsistentHasRows(t: Tables)
    requires Consistent(t)
    ensures OneRowEach(t) && BaysInStep(t)
  {
  }

  lemma DoneIsOk(site: Site, s: System, x: Tx)
    requires x.BookDone? && (x.id in s.tables.appointments)
    ensures TxOk(site, s, x)
  {
  }

  /** Closing an appointment only frees its vehicle and its slot. */
  lemma ClosingKeepsOthers(site: Site, s: System, s': System, id: int, y: Tx)
    requires TxOk(site, s, y) && id in s.tables.appointments && id < s.nextId && s'.nextId == s.nextId
    requires s'.tables == CommitCancel(s.tables, id) || s'.tables == CommitComplete(s.tables, id)
    requires Closes(y) ==> y.id != id
    ensures TxOk(site, s', y)
  {
    if y.BookVehicleFree? || y.BookBayPicked? || y.BookInserted? {
      var c := y.booking;
      forall i | 0 <= i < |s'.tables.vehicles| ensures !Occupies(s'.tables, i, c.vehicle, c.start, c.end) {
        assert !Occupies(s.tables, i, c.vehicle, c.start, c.end);
      }
      if y.BookInserted? {
        forall i | 0 <= i < |s'.tables.bays| ensures !Blocks(s'.tables.bays[i], y.bay, c.start, c.end) {
          assert !Blocks(s.tables.bays[i], y.bay, c.start, c.end);
        }
      }
    }
  }

  lemma ClosingKeepsRowsKnown(site: Site, t: Tables, t': Tables, id: int)
    requires RowsKnown(site, t) && id in t.appointments
    requires t' == CommitCancel(t, id) || t' == CommitComplete(t, id)
    ensures RowsKnown(site, t')
  {
    forall i | 0 <= i < |t'.bays| && t'.bays[i].appointment in t'.appointments
      ensures BayOfHub(site.bays, t'.bays[i].bay, t'.appointments[t'.bays[i].appointment].hub)
    {
      assert t'.bays[i].bay == t.bays[i].bay && t'.bays[i].appointment == t.bays[i].appointment;
    }
  }

  lemma ClosingCommitKeepsInv(site: Site, s: System, t: int)
    requires Inv(site, s) && t in s.txs && (s.txs[t].CancelUpdated? || s.txs[t].CompleteUpdated?)
    ensures Inv(site, Statement(site, s, t))
  {
    hide Consistent, RowsKnown, TxOk, PairOk, Statement, CommitCancel, CommitComplete;
    var x := s.txs[t];
    var s' := Statement(site, s, t);
    assert TxOk(site, s, x);
    ClosingIs(site, s, t);
    ClosingKeepsTables(site, s.tables, s'.tables, x);
    ClosingKeepsPairs(site, s, t, s'.txs[t]);
    forall u | u in s'.txs ensures TxOk(site, s', s'.txs[u]) {
      if u != t {
        assert TxOk(site, s, s.txs[u]) && PairOk(site, x, s.txs[u]);
        PairIsApart(site, x, s.txs[u]);
        ClosingKeepsOthers(site, s, s', x.id, s.txs[u]);
      } else {
        ClosedIsOk(site, s, t);
      }
    }
  }

  /** The commit of a call that closed its appointment. */
  lemma ClosingIs(site: Site, s: System, t: int)
    requires t in s.txs && (s.txs[t].CancelUpdated? || s.txs[t].CompleteUpdated?) && TxOk(site, s, s.txs[t])
    requires forall id :: id in s.tables.appointments ==> id < s.nextId
    ensures var x, s' := s.txs[t], Statement(site, s, t);
      && x.id in s.tables.appointments && x.id < s.nextId && s'.nextId == s.nextId
      && (if x.CancelUpdated?
          then s.tables.appointments[x.id].status == Booked && s'.tables == CommitCancel(s.tables, x.id)
          else Live(s.tables.appointments[x.id].status) && s'.tables == CommitComplete(s.tables, x.id))
      && s'.txs == s.txs[t := if x.CancelUpdated? then CancelDone(x.id) else CompleteDone(x.id)]
  {
    hide CommitCancel, CommitComplete, VehicleBusy, BayFree;
  }

  lemma PairIsApart(site: Site, x: Tx, y: Tx)
    requires PairOk(site, x, y) && (x.CancelUpdated? || x.CompleteUpdated?)
    ensures Closes(y) ==> y.id != x.id
  {
  }

  lemma ClosedIsOk(site: Site, s: System, t: int)
    requires t in s.txs && (s.txs[t].CancelUpdated? || s.txs[t].CompleteUpdated?) && TxOk(site, s, s.txs[t])
    ensures TxOk(site, Statement(site, s, t), Statement(site, s, t).txs[t])
  {
  }

  lemma ClosingKeepsTables(site: Site, t: Tables, t': Tables, x: Tx)
    requires Consistent(t) && RowsKnown(site, t) && (x.CancelUpdated? || x.CompleteUpdated?)
    requires x.id in t.appointments
    requires if x.CancelUpdated? then t.appointments[x.id].status == Booked else Live(t.appointments[x.id].status)
    requires t' == if x.CancelUpdated? then CommitCancel(t, x.id) else CommitComplete(t, x.id)
    ensures Consistent(t') && RowsKnown(site, t') && t'.appointments.Keys == t.appointments.Keys
  {
    if x.CancelUpdated? {
      CancelKeepsConsistent(t, x.id);
    } else {
      CompleteKeepsConsistent(t, x.id);
    }
    ClosingKeepsRowsKnown(site, t, t', x.id);
  }

  lemma ClosingKeepsPairs(site: Site, s: System, t: int, x: Tx)
    requires t in s.txs && (x.CancelDone? || x.CompleteDone?)
    requires Closes(s.txs[t]) && x.id == s.txs[t].id
    requires forall u, w :: u in s.txs && w in s.txs && u != w ==> PairOk(site, s.txs[u], s.txs[w])
    ensures var txs := s.txs[t := x]; forall u, w :: u in txs && w in txs && u != w ==> PairOk(site, txs[u], txs[w])
  {
    var txs := s.txs[t := x];
    forall u, w | u in txs && w in txs && u != w ensures PairOk(site, txs[u], txs[w]) {
      assert PairOk(site, s.txs[u], s.txs[w]);
    }
  }

  lemma StatementKeepsInv(site: Site, s: System, t: int)
    requires Inv(site, s) && t in s.txs
    ensures Inv(site, Statement(site, s, t))
  {
    var x := s.txs[t];
    assert TxOk(site, s, x);
    match x
    case BookStarted(b) =>
      if !VehicleLocked(site, s, t, b.vehicle) {
        MovingKeepsInv(site, s, t, BookLocked(b));
      }
    case BookLocked(b) => MovingTo(site, s, t, Statement(site, s, t).txs[t]);
    case BookVehicleFree(b) => MovingTo(site, s, t, Statement(site, s, t).txs[t]);
    case BookBayPicked(b, bay) => InsertingKeepsInv(site, s, t);
    case BookInserted(b, bay, id) => BookingCommitKeepsInv(site, s, t);
    case CancelUpdated(id) => ClosingCommitKeepsInv(site, s, t);
    case CompleteUpdated(id) => ClosingCommitKeepsInv(site, s, t);
    case CancelChecked(id) => UpdatingKeepsInv(site, s, t);
    case CompleteChecked(id) => UpdatingKeepsInv(site, s, t);
    case _ =>
  }

  /** Moving on under the same locks, or giving up. */
  lemma MovingTo(site: Site, s: System, t: int, x: Tx)
    requires Inv(site, s) && t in s.txs && TxOk(site, s, x)
    requires x.Failed? || (HoldsVehicleLock(s.txs[t]) && HoldsVehicleLock(x) && !x.BookInserted?
                           && x.booking == s.txs[t].booking)
    ensures Inv(site, Now(s, t, x))
  {
    hide Consistent, RowsKnown, VehicleBusy, BayFree;
    forall u | u in s.txs && u != t ensures PairOk(site, x, s.txs[u]) && PairOk(site, s.txs[u], x) {
      assert PairOk(site, s.txs[t], s.txs[u]) && PairOk(site, s.txs[u], s.txs[t]);
    }
    MovingKeepsInv(site, s, t, x);
  }

  /** The conditional update waits for the row lock, then looks at the committed status. */
  lemma UpdatingKeepsInv(site: Site, s: System, t: int)
    requires Inv(site, s) && t in s.txs && (s.txs[t].CancelChecked? || s.txs[t].CompleteChecked?)
    ensures Inv(site, Statement(site, s, t))
  {
    hide Consistent, RowsKnown, VehicleBusy, BayFree;
    var id := s.txs[t].id;
    if !RowLocked(s, t, id) {
      var x := Statement(site, s, t).txs[t];
      forall u | u in s.txs && u != t ensures PairOk(site, x, s.txs[u]) && PairOk(site, s.txs[u], x) {
        assert TxOk(site, s, s.txs[u]) && !HoldsRowLock(s.txs[u], id);
      }
      MovingKeepsInv(site, s, t, x);
    }
  }

  lemma ExecKeepsInv(site: Site, s: System, a: Action)
    requires Inv(site, s)
    ensures Inv(site, Exec(site, s, a))
  {
    hide Consistent, RowsKnown, Statement, VehicleBusy, BayFree;
    match a
    case Start(t, call) =>
      if t !in s.txs {
        MovingKeepsInv(site, s, t, FirstRead(s, call));
      }
    case Advance(t) =>
      if t in s.txs {
        StatementKeepsInv(site, s, t);
      }
    case Rollback(t) =>
      if t in s.txs && !Finished(s.txs[t]) {
        MovingTo(site, s, t, Failed);
      }
  }

  lemma {:induction false} RunKeepsInv(site: Site, s: System, actions: seq<Action>)
    requires Inv(site, s)
    ensures Inv(site, Run(site, s, actions))
    decreases |actions|
  {
    if actions != [] {
      ExecKeepsInv(site, s, actions[0]);
      RunKeepsInv(site, Exec(site, s, actions[0]), actions[1..]);
    }
  }

  // --- What it means -----------------------------------------------------------

  /** However calls interleave, no bay is reserved twice at a time and no vehicle
      has two live appointments at a time. */
  lemma NothingIsDoubleBooked(site: Site, actions: seq<Action>)
    ensures var t := Run(site, INITIAL, actions).tables; BaysDisjoint(t.bays) && VehiclesDisjoint(t)
  {
    InitialInv(site);
    RunKeepsInv(site, INITIAL, actions);
  }

  predicate ClosedOne(x: Tx) {
    x.CancelDone? || x.CompleteDone?
  }

  /** Of any Cancel and Complete calls on one appointment at most one commits, even
      those acting on stale reads. Whatever committed, the appointment, its bay
      and its service lines agree, and the outbox holds its one Booked event and
      exactly the terminal event its status calls for. */
  lemma OneCallCloses(site: Site, actions: seq<Action>, t: int, u: int)
    ensures var s := Run(site, INITIAL, actions);
      && BaysInStep(s.tables) && LinesInStep(s.tables) && OneRowEach(s.tables) && OutboxMatches(s.tables)
      && (t in s.txs && u in s.txs && t != u && ClosedOne(s.txs[t]) && ClosedOne(s.txs[u]) ==>
           s.txs[t].id != s.txs[u].id)
      && (t in s.txs && s.txs[t].CancelDone? ==>
           && Count(s.tables, AppointmentCancelled, s.txs[t].id) == 1
           && Count(s.tables, ServiceCompleted, s.txs[t].id) == 0)
      && (t in s.txs && s.txs[t].CompleteDone? ==>
           && Count(s.tables, ServiceCompleted, s.txs[t].id) == 1
           && Count(s.tables, AppointmentCancelled, s.txs[t].id) == 0)
  {
    InitialInv(site);
    RunKeepsInv(site, INITIAL, actions);
    var s := Run(site, INITIAL, actions);
    assert t in s.txs ==> TxOk(site, s, s.txs[t]);
  }

  // --- The constraint decides ---------------------------------------------------

  const ONE_BAY: seq<Bay> := [Bay(1, 1, true)]
  const EARLIER := Booking(1, 1, 1, 0, 10, [])
  const LATER := Booking(1, 2, 2, 5, 15, [])

  /** Both calls have looked for a bay, and found the same one. */
  const BOTH_PICKED := System(EMPTY, 1, map[1 := BookBayPicked(EARLIER, 1), 2 := BookBayPicked(LATER, 1)])

  function Racing(one: Tx, two: Tx): System {
    System(EMPTY, 1, map[1 := one, 2 := two])
  }

  lemma OneBayIsFree(start: int, end: int)
    ensures FreeBay(ONE_BAY, EMPTY, 1, start, end) == Some(1)
  {
    assert ONE_BAY[0] == Bay(1, 1, true) && ONE_BAY[0] in ONE_BAY;
  }

  lemma FirstPicks(site: Site)
    requires site.bays == ONE_BAY && site.lockKey(1) != site.lockKey(2)
    ensures Exec(site, Racing(BookStarted(EARLIER), BookStarted(LATER)), Advance(1))
         == Racing(BookLocked(EARLIER), BookStarted(LATER))
    ensures Exec(site, Racing(BookLocked(EARLIER), BookStarted(LATER)), Advance(1))
         == Racing(BookVehicleFree(EARLIER), BookStarted(LATER))
    ensures Exec(site, Racing(BookVehicleFree(EARLIER), BookStarted(LATER)), Advance(1))
         == Racing(BookBayPicked(EARLIER, 1), BookStarted(LATER))
  {
    OneBayIsFree(0, 10);
    hide FreeBay;
  }

  lemma SecondPicks(site: Site)
    requires site.bays == ONE_BAY && site.lockKey(1) != site.lockKey(2)
    ensures Exec(site, Racing(BookBayPicked(EARLIER, 1), BookStarted(LATER)), Advance(2))
         == Racing(BookBayPicked(EARLIER, 1), BookLocked(LATER))
    ensures Exec(site, Racing(BookBayPicked(EARLIER, 1), BookLocked(LATER)), Advance(2))
         == Racing(BookBayPicked(EARLIER, 1), BookVehicleFree(LATER))
    ensures Exec(site, Racing(BookBayPicked(EARLIER, 1), BookVehicleFree(LATER)), Advance(2)) == BOTH_PICKED
  {
    OneBayIsFree(5, 15);
    hide FreeBay;
  }

  lemma BothStart(site: Site)
    ensures Exec(site, Exec(site, INITIAL, Start(1, Book(EARLIER))), Start(2, Book(LATER)))
         == Racing(BookStarted(EARLIER), BookStarted(LATER))
  {
  }

  /** Call t takes three statements. */
  function Thrice(site: Site, s: System, t: int): System {
    Exec(site, Exec(site, Exec(site, s, Advance(t)), Advance(t)), Advance(t))
  }

  lemma RunThrice(site: Site, s: System, t: int, rest: seq<Action>)
    ensures Run(site, s, [Advance(t), Advance(t), Advance(t)] + rest) == Run(site, Thrice(site, s, t), rest)
  {
    hide Exec;
    var a := Advance(t);
    assert ([a, a, a] + rest)[1..] == [a, a] + rest && ([a, a] + rest)[1..] == [a] + rest && ([a] + rest)[1..] == rest;
    var next := Exec(site, s, a);
    assert Run(site, s, [a, a, a] + rest) == Run(site, next, [a, a] + rest);
    assert Run(site, next, [a, a] + rest) == Run(site, Exec(site, next, a), [a] + rest);
  }

  lemma BothPickTheBay(site: Site)
    requires site.bays == ONE_BAY && site.lockKey(1) != site.lockKey(2)
    ensures Run(site, INITIAL, [Start(1, Book(EARLIER)), Start(2, Book(LATER))]
                               + ([Advance(1), Advance(1), Advance(1)] + ([Advance(2), Advance(2), Advance(2)] + [])))
         == BOTH_PICKED
  {
    BothStart(site);
    FirstPicks(site);
    SecondPicks(site);
    hide Exec;
    var one, two := Start(1, Book(EARLIER)), Start(2, Book(LATER));
    var second := [Advance(2), Advance(2), Advance(2)] + [];
    var rest := [Advance(1), Advance(1), Advance(1)] + second;
    assert ([one, two] + rest)[1..] == [two] + rest && ([two] + rest)[1..] == rest;
    RunThrice(site, Racing(BookStarted(EARLIER), BookStarted(LATER)), 1, second);
    RunThrice(site, Racing(BookBayPicked(EARLIER, 1), BookStarted(LATER)), 2, []);
  }

  /** A call can find a bay free and still be turned away: once the other has inserted, it
      waits for it to commit, and then the exclusion constraint refuses its row. */
  lemma TheConstraintTurnsOneAway(site: Site)
    requires site.bays == ONE_BAY && site.lockKey(1) != site.lockKey(2)
    ensures var inserted := Exec(site, BOTH_PICKED, Advance(1));
      var committed := Exec(site, inserted, Advance(1));
      && Exec(site, inserted, Advance(2)) == inserted
      && committed.txs[1] == BookDone(1)
      && Exec(site, committed, Advance(2)).txs[2] == Failed
  {
    var inserted := Exec(site, BOTH_PICKED, Advance(1));
    assert inserted.txs[1] == BookInserted(EARLIER, 1, 1);
    assert Undecided(inserted.tables, inserted.txs[1], 1, 5, 15);
    var committed := Exec(site, inserted, Advance(1));
    assert committed.tables.bays[0] == BayRow(1, 1, 0, 10, Reserved);
    assert Blocks(committed.tables.bays[0], 1, 5, 15);
    forall u | u in committed.txs && u != 2 ensures !Undecided(committed.tables, committed.txs[u], 1, 5, 15) {
      assert u == 1;
    }
  }

  // --- Capacity ---------------------------------------------------------------

  /** Bay row i holds a bay of the hub at this instant. */
  predicate Covers(t: Tables, i: int, hub: int, instant: int)
    requires 0 <= i < |t.bays|
  {
    && t.bays[i].status != BayCancelled && t.bays[i].start <= instant < t.bays[i].end
    && t.bays[i].appointment in t.appointments && t.appointments[t.bays[i].appointment].hub == hub
  }

  /** The rows among the first n that do. */
  ghost function Covering(t: Tables, hub: int, instant: int, n: nat): set<int>
    requires n <= |t.bays|
  {
    set i | 0 <= i < n && Covers(t, i, hub, instant)
  }

  ghost function BaysOf(site: Site, hub: int): set<int> {
    set b | b in site.bays && b.hub == hub :: b.id
  }

  lemma CoveringOneMore(t: Tables, hub: int, instant: int, n: nat)
    requires n < |t.bays|
    ensures Covering(t, hub, instant, n + 1)
         == if Covers(t, n, hub, instant) then Covering(t, hub, instant, n) + {n} else Covering(t, hub, instant, n)
    ensures n !in Covering(t, hub, instant, n)
  {
    hide Covers;
  }

  lemma OtherBay(t: Tables, hub: int, instant: int, n: nat)
    requires n < |t.bays| && BaysDisjoint(t.bays) && Covers(t, n, hub, instant)
    ensures forall i :: 0 <= i < n && Covers(t, i, hub, instant) ==> t.bays[i].bay != t.bays[n].bay
  {
    forall i | 0 <= i < n && Covers(t, i, hub, instant) ensures t.bays[i].bay != t.bays[n].bay {
      assert RowsDisjoint(t.bays[i], t.bays[n]);
    }
  }

  lemma {:induction false} DistinctBays(t: Tables, hub: int, instant: int, n: nat, among: set<int>)
    requires n <= |t.bays| && BaysDisjoint(t.bays)
    requires forall i :: 0 <= i < n && Covers(t, i, hub, instant) ==> t.bays[i].bay in among
    ensures |Covering(t, hub, instant, n)| <= |among|
  {
    if n == 0 {
      assert Covering(t, hub, instant, n) == {};
    } else {
      hide Covers, Covering, BaysDisjoint;
      CoveringOneMore(t, hub, instant, n - 1);
      if Covers(t, n - 1, hub, instant) {
        OtherBay(t, hub, instant, n - 1);
        DistinctBays(t, hub, instant, n - 1, among - {t.bays[n - 1].bay});
      } else {
        DistinctBays(t, hub, instant, n - 1, among);
      }
    }
  }

  /** At every instant of every run a hub holds no more reservations than it has bays. */
  lemma HubNeverOverfull(site: Site, actions: seq<Action>, hub: int, instant: int)
    ensures var t := Run(site, INITIAL, actions).tables;
      |Covering(t, hub, instant, |t.bays|)| <= |BaysOf(site, hub)|
  {
    InitialInv(site);
    RunKeepsInv(site, INITIAL, actions);
    var t := Run(site, INITIAL, actions).tables;
    forall i | 0 <= i < |t.bays| && Covers(t, i, hub, instant) ensures t.bays[i].bay in BaysOf(site, hub) {
      assert BayOfHub(site.bays, t.bays[i].bay, hub);
    }
    DistinctBays(t, hub, instant, |t.bays|, BaysOf(site, hub));
  }

  ghost function BlockedRows(t: Tables): set<int> {
    set i | 0 <= i < |t.bays| && t.bays[i].status != BayCancelled
  }

  ghost predicate SameSlots(t: Tables, t': Tables) {
    |t.bays| <= |t'.bays| && forall i :: 0 <= i < |t.bays| ==> SameSlot(t.bays[i], t'.bays[i])
  }

  /** A booking blocks exactly its own new slot. */
  lemma BookingBlocksOneSlot(t: Tables, id: int, b: Booking, bay: int)
    ensures var t' := CommitBooking(t, id, b, bay);
      && SameSlots(t, t') && |t'.bays| == |t.bays| + 1
      && t'.bays[|t.bays|] == BayRow(id, bay, b.start, b.end, Reserved)
      && BlockedRows(t') == BlockedRows(t) + {|t.bays|}
  {
    var t' := CommitBooking(t, id, b, bay);
    forall i ensures i in BlockedRows(t') <==> i in BlockedRows(t) + {|t.bays|} {
      if 0 <= i < |t.bays| {
        assert t'.bays[i] == t.bays[i];
      }
    }
  }

  /** A cancellation frees exactly its appointment's slot. */
  lemma CancelFreesOneSlot(t: Tables, id: int)
    requires Consistent(t) && id in t.appointments && t.appointments[id].status == Booked
    ensures var t' := CommitCancel(t, id);
      && SameSlots(t, t') && |t'.bays| == |t.bays|
      && exists i :: i in BlockedRows(t) && t.bays[i].appointment == id && BlockedRows(t') == BlockedRows(t) - {i}
  {
    var t' := CommitCancel(t, id);
    assert HasItsRows(t, id);
    var i :| 0 <= i < |t.bays| && t.bays[i].appointment == id;
    assert BayAgrees(Booked, t.bays[i].status);
    forall k ensures k in BlockedRows(t') <==> k in BlockedRows(t) - {i} {
      if 0 <= k < |t.bays| && k != i {
        assert t.bays[k].appointment != id;
        assert t'.bays[k] == t.bays[k];
      }
    }
    assert i in BlockedRows(t) && BlockedRows(t') == BlockedRows(t) - {i};
  }

  /** A completion blocks and frees nothing: used time stays recorded. */
  lemma CompleteKeepsSlots(t: Tables, id: int)
    requires id in t.appointments
    ensures var t' := CommitComplete(t, id);
      SameSlots(t, t') && |t'.bays| == |t.bays| && BlockedRows(t') == BlockedRows(t)
  {
    var t' := CommitComplete(t, id);
    forall i ensures i in BlockedRows(t') <==> i in BlockedRows(t) {
      if 0 <= i < |t.bays| {
        assert t'.bays[i] == ReleaseBays(t.bays, id)[i];
      }
    }
  }
}
