/** The owners of one vehicle: its rows in customer_vehicle, in the order of their ids, and its ownership events. */
module Ownership {
  import opened Prelude

  datatype OwnershipStatus = Current | Transferred

  /** Dates are day numbers. */
  datatype OwnerRow = OwnerRow(customer: int, from: int, to: Option<int>, status: OwnershipStatus)

  datatype OwnerEvent =
    | OwnerAssigned(customer: int, from: int)
    | VehicleTransferred(customer: int, previous: int, from: int)

  datatype Error = NotFound | Conflict | InvalidInput | InvalidState | CheckViolated | Aborted

  datatype Owners = Owners(rows: seq<OwnerRow>, events: seq<OwnerEvent>)

  /** The first CURRENT row, by id. */
  function CurrentRow(rows: seq<OwnerRow>): (r: Option<int>)
    ensures r.Some? ==> 0 <= r.value < |rows| && rows[r.value].status == Current
    ensures r.None? ==> forall i :: 0 <= i < |rows| ==> rows[i].status != Current
  {
    if rows == [] then None
    else
      var before := CurrentRow(rows[..|rows| - 1]);
      if before.Some? then before else if rows[|rows| - 1].status == Current then Some(|rows| - 1) else None
  }

  function Close(row: OwnerRow, date: int): OwnerRow {
    row.(to := Some(date), status := Transferred)
  }

  function NewOwner(customer: int, date: int): OwnerRow {
    OwnerRow(customer, date, None, Current)
  }

  /** TransferVehicle on its own. */
  function TransferTx(o: Owners, from: int, to: int, date: int): Result<Owners, Error> {
    var i := CurrentRow(o.rows);
    if i.None? then Err(NotFound)
    else if o.rows[i.value].customer != from then Err(Conflict)
    else if date < o.rows[i.value].from then Err(CheckViolated)
    else
      var closed := o.rows[i.value := Close(o.rows[i.value], date)];
      if CurrentRow(closed).Some? then Err(Conflict)
      else Ok(Owners(closed + [NewOwner(to, date)], o.events + [VehicleTransferred(to, from, date)]))
  }

  /** AssignInitialOwner on its own, on a day, for a vehicle that may be scrapped. */
  function AssignTx(o: Owners, customer: int, date: int, today: int, scrapped: bool): Result<Owners, Error> {
    if customer <= 0 || date > today then Err(InvalidInput)
    else if scrapped then Err(InvalidState)
    else if CurrentRow(o.rows).Some? then Err(Conflict)
    else Ok(Owners(o.rows + [NewOwner(customer, date)], o.events + [OwnerAssigned(customer, date)]))
  }

  class OwnerStore {
    var rows: seq<OwnerRow>
    var events: seq<OwnerEvent>

    constructor ()
      ensures Contents() == Owners([], [])
    {
      rows, events := [], [];
    }

    function Contents(): Owners
      reads this
    {
      Owners(rows, events)
    }

    /** Inserts a CURRENT row, unless the unique index has one. */
    method AssignVehicleToCustomer(customer: int, date: int) returns (r: Result<(), Error>)
      modifies this`rows
      ensures r == if CurrentRow(old(rows)).Some? then Err(Conflict) else Ok(())
      ensures rows == if r.Ok? then old(rows) + [NewOwner(customer, date)] else old(rows)
    {
      if CurrentRow(rows).Some? {
        return Err(Conflict);
      }
      rows := rows + [OwnerRow(customer, date, None, Current)];
      return Ok(());
    }

    /** Closes the CURRENT row of the customer, which the select locked. */
    method UnassignVehicleFromCustomer(customer: int, date: int) returns (r: Result<(), Error>)
      modifies this`rows
      ensures var i := CurrentRow(old(rows));
        && r == (if i.None? then Err(NotFound) else if old(rows)[i.value].customer != customer then Err(Conflict)
                 else if date < old(rows)[i.value].from then Err(CheckViolated) else Ok(()))
        && rows == if r.Ok? then old(rows)[i.value := Close(old(rows)[i.value], date)] else old(rows)
    {
      var i := CurrentRow(rows);
      if i.None? {
        return Err(NotFound);
      }
      var row := rows[i.value];
      if row.customer != customer {
        return Err(Conflict);
      }
      if date < row.from {
        return Err(CheckViolated);
      }
      row := row.(to := Some(date));
      row := row.(status := Transferred);
      rows := rows[i.value := row];
      return Ok(());
    }

    method WriteEvent(e: OwnerEvent)
      modifies this`events
      ensures events == old(events) + [e]
    {
      events := events + [e];
    }

    method RollBack(before: Owners)
      modifies this
      ensures Contents() == before
    {
      rows, events := before.rows, before.events;
    }

    method TransferVehicle(from: int, to: int, date: int) returns (r: Result<(), Error>)
      modifies this
      ensures var tx := TransferTx(old(Contents()), from, to, date);
        if tx.Ok? then r == Ok(()) && Contents() == tx.value else r == Err(tx.error) && Contents() == old(Contents())
    {
      var before := Contents();
      r := UnassignVehicleFromCustomer(from, date);
      if r.Err? {
        return r;
      }
      r := AssignVehicleToCustomer(to, date);
      if r.Err? {
        RollBack(before);
        return r;
      }
      WriteEvent(VehicleTransferred(to, from, date));
    }

    method AssignInitialOwner(customer: int, date: int, today: int, scrapped: bool) returns (r: Result<(), Error>)
      modifies this
      ensures var tx := AssignTx(old(Contents()), customer, date, today, scrapped);
        if tx.Ok? then r == Ok(()) && Contents() == tx.value else r == Err(tx.error) && Contents() == old(Contents())
    {
      if customer <= 0 {
        return Err(InvalidInput);
      }
      if date > today {
        return Err(InvalidInput);
      }
      if scrapped {
        return Err(InvalidState);
      }
      r := AssignVehicleToCustomer(customer, date);
      if r.Ok? {
        WriteEvent(OwnerAssigned(customer, date));
      }
    }
  }

  // --- The chain ------------------------------------------------------------------

  /** All rows but the last are closed on the day their successor starts; the last is CURRENT. */
  ghost predicate Chain(rows: seq<OwnerRow>) {
    && (rows != [] ==> rows[|rows| - 1].status == Current && rows[|rows| - 1].to == None)
    && (forall k :: 0 <= k < |rows| - 1 ==>
         rows[k].status == Transferred && rows[k].to == Some(rows[k + 1].from) && rows[k].from <= rows[k + 1].from)
  }

  /** The owner an event leaves behind. */
  function OwnerAfter(e: OwnerEvent): int {
    e.customer
  }

  /** The first event assigns, each later one names the owner before it. */
  ghost predicate EventChain(events: seq<OwnerEvent>) {
    && (events != [] ==> events[0].OwnerAssigned?)
    && (forall k :: 0 < k < |events| ==>
         events[k].VehicleTransferred? && events[k].previous == OwnerAfter(events[k - 1]))
  }

  /** One event per row, about that row. */
  ghost predicate Told(o: Owners) {
    && |o.events| == |o.rows|
    && (forall k :: 0 <= k < |o.rows| ==>
         o.events[k].customer == o.rows[k].customer && o.events[k].from == o.rows[k].from)
    && EventChain(o.events)
  }

  ghost predicate WellOwned(o: Owners) {
    Chain(o.rows) && Told(o)
  }

  lemma CurrentIsLast(rows: seq<OwnerRow>)
    requires Chain(rows)
    ensures CurrentRow(rows) == if rows == [] then None else Some(|rows| - 1)
  {
    assert rows != [] ==> rows[|rows| - 1].status == Current;
  }

  lemma TransferKeepsWellOwned(o: Owners, from: int, to: int, date: int)
    requires WellOwned(o) && TransferTx(o, from, to, date).Ok?
    ensures WellOwned(TransferTx(o, from, to, date).value)
  {
    CurrentIsLast(o.rows);
    var n, events := |o.rows|, TransferTx(o, from, to, date).value.events;
    assert o.events[n - 1].customer == o.rows[n - 1].customer;
    assert forall k :: 0 <= k < n ==> events[k] == o.events[k];
  }

  lemma AssignKeepsWellOwned(o: Owners, customer: int, date: int, today: int, scrapped: bool)
    requires WellOwned(o) && AssignTx(o, customer, date, today, scrapped).Ok?
    ensures WellOwned(AssignTx(o, customer, date, today, scrapped).value) && o.rows == []
  {
    CurrentIsLast(o.rows);
  }

  /** On a well-kept table, a transfer fails exactly if there is no owner, another owner, or
      the date is before the owner's first day; the unique index never stands in its way. */
  lemma TransferFailsIff(o: Owners, from: int, to: int, date: int)
    requires WellOwned(o)
    ensures var r := TransferTx(o, from, to, date); var n := |o.rows|;
      r.Ok? <==> n > 0 && o.rows[n - 1].customer == from && date >= o.rows[n - 1].from
  {
    CurrentIsLast(o.rows);
    if o.rows != [] {
      var n := |o.rows| - 1;
      var closed := o.rows[n := Close(o.rows[n], date)];
      assert forall i :: 0 <= i < |closed| ==> closed[i].status != Current;
    }
  }

  /** A transfer is refused for the first of these reasons; otherwise the owner's row ends on the day the new
      owner's starts, everything before stays, and it is told once. */
  lemma TransferAnswers(o: Owners, from: int, to: int, date: int)
    requires WellOwned(o)
    ensures var r := TransferTx(o, from, to, date); var n := |o.rows| - 1;
      if o.rows == [] then r == Err(NotFound)
      else if o.rows[n].customer != from then r == Err(Conflict)
      else if date < o.rows[n].from then r == Err(CheckViolated)
      else
        && r.Ok?
        && r.value.rows == o.rows[..n] + [OwnerRow(from, o.rows[n].from, Some(date), Transferred),
                                          OwnerRow(to, date, None, Current)]
        && r.value.events == o.events + [VehicleTransferred(to, from, date)]
  {
    TransferFailsIff(o, from, to, date);
    CurrentIsLast(o.rows);
    hide WellOwned;
  }

  /** A first owner is refused for the first of these reasons; otherwise theirs is the only row, and it is told once. */
  lemma AssignAnswers(o: Owners, customer: int, date: int, today: int, scrapped: bool)
    requires WellOwned(o)
    ensures var r := AssignTx(o, customer, date, today, scrapped);
      if customer <= 0 || date > today then r == Err(InvalidInput)
      else if scrapped then r == Err(InvalidState)
      else if o.rows != [] then r == Err(Conflict)
      else r.Ok? && r.value.rows == [OwnerRow(customer, date, None, Current)]
           && r.value.events == [OwnerAssigned(customer, date)]
  {
    CurrentIsLast(o.rows);
  }
}
