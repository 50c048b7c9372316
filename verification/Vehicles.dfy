/** Registering and updating vehicles, and what their events say.

    An update locks its row for the whole transaction, so it is one step. Dates
    are day numbers; VINs and plates come normalized; a stamp is a timestamp as
    the table stores it. */
module Vehicles {
  import opened Prelude

  datatype Status = Active | Sold | Scrapped

  datatype StatusInput = Known(status: Status) | Unknown(text: string)

  datatype Vehicle = Vehicle(
    id: int, vin: string, plate: string, model: int, warranty: Option<int>, status: Status,
    createdAt: int, updatedAt: int)

  datatype Registration = Registration(
    vin: string, plate: string, model: int, warranty: Option<int>, status: Option<StatusInput>)

  datatype Update = Update(
    status: Option<StatusInput>, warranty: Option<int>, clearWarranty: bool, updatedAt: Option<int>)

  datatype Event =
    | VehicleCreated(vehicle: Vehicle)
    | VehicleUpdated(vehicle: Vehicle)
    | WarrantyChanged(id: int, previous: Option<int>, warranty: Option<int>)

  datatype Error = InvalidInput | InvalidState | NotFound | Conflict

  datatype Db = Db(vehicles: map<int, Vehicle>, nextId: int, outbox: seq<Event>)

  const EMPTY := Db(map[], 1, [])

  /** The unique VIN, and the unique plate of those that have one. */
  predicate Taken(vehicles: map<int, Vehicle>, vin: string, plate: string) {
    exists id :: id in vehicles && (vehicles[id].vin == vin || (plate != "" && vehicles[id].plate == plate))
  }

  /** knownModel: whether the model's foreign key resolves. */
  function RegisterTx(db: Db, r: Registration, knownModel: bool, now: int): Result<Db, Error> {
    var status := if r.status.None? then Known(Active) else r.status.value;
    if r.model <= 0 || status.Unknown? then Err(InvalidInput)
    else if Taken(db.vehicles, r.vin, r.plate) then Err(Conflict)
    else if !knownModel then Err(InvalidInput)
    else
      var v := Vehicle(db.nextId, r.vin, r.plate, r.model, r.warranty, status.status, now, now);
      Ok(Db(db.vehicles[v.id := v], db.nextId + 1, db.outbox + [VehicleCreated(v)]))
  }

  predicate ValidUpdate(u: Update) {
    && (u.status.Some? || u.warranty.Some? || u.clearWarranty)
    && !(u.clearWarranty && u.warranty.Some?)
    && (u.status.Some? ==> u.status.value.Known?)
    && u.updatedAt.Some?
  }

  /** The row an update asks for. */
  function Wanted(v: Vehicle, u: Update): Vehicle
    requires ValidUpdate(u)
  {
    v.(status := if u.status.Some? then u.status.value.status else v.status,
       warranty := if u.clearWarranty then None else if u.warranty.Some? then u.warranty else v.warranty)
  }

  function UpdateTx(db: Db, id: int, u: Update, now: int): Result<Db, Error> {
    if !ValidUpdate(u) then Err(InvalidInput)
    else if id !in db.vehicles then Err(NotFound)
    else
      var v := db.vehicles[id];
      if Some(v.updatedAt) != u.updatedAt then Err(Conflict)
      else if v.status == Scrapped then Err(InvalidState)
      else
        var next := Wanted(v, u);
        if next == v then Ok(db)
        else
          var saved := next.(updatedAt := now);
          var changed := if saved.warranty != v.warranty
                         then [WarrantyChanged(id, v.warranty, saved.warranty)] else [];
          Ok(db.(vehicles := db.vehicles[id := saved], outbox := db.outbox + [VehicleUpdated(saved)] + changed))
  }

  class Store {
    var vehicles: map<int, Vehicle>
    var nextId: int
    var outbox: seq<Event>

    constructor ()
      ensures Contents() == EMPTY
    {
      vehicles, nextId, outbox := map[], 1, [];
    }

    function Contents(): Db
      reads this
    {
      Db(vehicles, nextId, outbox)
    }

    method Create(r: Registration, status: Status, knownModel: bool, now: int) returns (v: Result<Vehicle, Error>)
      modifies this`vehicles, this`nextId
      ensures if Taken(old(vehicles), r.vin, r.plate) then v == Err(Conflict)
              else if !knownModel then v == Err(InvalidInput)
              else v == Ok(Vehicle(old(nextId), r.vin, r.plate, r.model, r.warranty, status, now, now))
      ensures if v.Ok? then vehicles == old(vehicles)[v.value.id := v.value] && nextId == old(nextId) + 1
              else vehicles == old(vehicles) && nextId == old(nextId)
    {
      if Taken(vehicles, r.vin, r.plate) {
        return Err(Conflict);
      }
      if !knownModel {
        return Err(InvalidInput);
      }
      var row := Vehicle(nextId, r.vin, r.plate, r.model, r.warranty, status, now, now);
      vehicles := vehicles[nextId := row];
      nextId := nextId + 1;
      return Ok(row);
    }

    /** Writes the mutable columns if the row still carries the stamp next was read with. */
    method Save(next: Vehicle, now: int) returns (r: Result<(), Error>)
      modifies this`vehicles
      ensures r == if next.id !in old(vehicles) then Err(NotFound)
                   else if old(vehicles)[next.id].updatedAt != next.updatedAt then Err(Conflict) else Ok(())
      ensures vehicles == if r.Err? then old(vehicles)
                          else var row := old(vehicles)[next.id];
                               old(vehicles)[next.id := row.(plate := next.plate, model := next.model,
                                 warranty := next.warranty, status := next.status, updatedAt := now)]
    {
      if next.id !in vehicles {
        return Err(NotFound);
      }
      var row := vehicles[next.id];
      if row.updatedAt != next.updatedAt {
        return Err(Conflict);
      }
      vehicles := vehicles[next.id := row.(plate := next.plate, model := next.model, warranty := next.warranty,
                                           status := next.status, updatedAt := now)];
      return Ok(());
    }

    method WriteEvent(e: Event)
      modifies this`outbox
      ensures outbox == old(outbox) + [e]
    {
      outbox := outbox + [e];
    }
  }

  class Service {
    const store: Store

    constructor (store: Store)
      ensures this.store == store
    {
      this.store := store;
    }

    method RegisterVehicle(r: Registration, knownModel: bool, now: int) returns (created: Result<Vehicle, Error>)
      modifies store
      ensures var tx := RegisterTx(old(store.Contents()), r, knownModel, now);
        if tx.Ok?
        then created == Ok(tx.value.vehicles[old(store.nextId)]) && store.Contents() == tx.value
        else created == Err(tx.error) && store.Contents() == old(store.Contents())
    {
      if r.model <= 0 {
        return Err(InvalidInput);
      }
      var status := r.status;
      if status.None? {
        status := Some(Known(Active));
      }
      if status.value.Unknown? {
        return Err(InvalidInput);
      }
      created := store.Create(r, status.value.status, knownModel, now);
      if created.Ok? {
        store.WriteEvent(VehicleCreated(created.value));
      }
    }

    /** Rows are stored under their ids. */
    method UpdateVehicle(id: int, u: Update, now: int) returns (updated: Result<Vehicle, Error>)
      requires id in store.vehicles ==> store.vehicles[id].id == id
      modifies store
      ensures var tx := UpdateTx(old(store.Contents()), id, u, now);
        if tx.Ok?
        then id in tx.value.vehicles && updated == Ok(tx.value.vehicles[id]) && store.Contents() == tx.value
        else updated == Err(tx.error) && store.Contents() == old(store.Contents())
    {
      if u.status.None? && u.warranty.None? && !u.clearWarranty {
        return Err(InvalidInput);
      }
      if u.clearWarranty && u.warranty.Some? {
        return Err(InvalidInput);
      }
      if u.status.Some? && u.status.value.Unknown? {
        return Err(InvalidInput);
      }
      if u.updatedAt.None? {
        return Err(InvalidInput);
      }
      if id !in store.vehicles {
        return Err(NotFound);
      }
      var current := store.vehicles[id];
      if current.updatedAt != u.updatedAt.value {
        return Err(Conflict);
      }
      if current.status == Scrapped {
        return Err(InvalidState);
      }
      var next := current;
      if u.status.Some? {
        next := next.(status := u.status.value.status);
      }
      if u.warranty.Some? {
        next := next.(warranty := u.warranty);
      }
      if u.clearWarranty {
        next := next.(warranty := None);
      }
      var statusChanged := next.status != current.status;
      var warrantyChanged := next.warranty != current.warranty;
      if !statusChanged && !warrantyChanged {
        return Ok(current);
      }
      var written := store.Save(next, now);
      var saved := store.vehicles[id];
      store.WriteEvent(VehicleUpdated(saved));
      if warrantyChanged {
        store.WriteEvent(WarrantyChanged(id, current.warranty, saved.warranty));
      }
      return Ok(saved);
    }
  }

  // --- Runs ----------------------------------------------------------------------

  datatype Action =
    | Register(registration: Registration, knownModel: bool, now: int)
    | Change(id: int, update: Update, now: int)

  function Exec(db: Db, a: Action): Db {
    var r := match a
      case Register(registration, knownModel, now) => RegisterTx(db, registration, knownModel, now)
      case Change(id, update, now) => UpdateTx(db, id, update, now);
    if r.Ok? then r.value else db
  }

  function Run(db: Db, actions: seq<Action>): Db
    decreases |actions|
  {
    if actions == [] then db else Run(Exec(db, actions[0]), actions[1..])
  }

  /** The warranty as a reader knows it that only listens to VehicleCreated and WarrantyChanged. */
  function ReplayWarranty(outbox: seq<Event>, id: int): Option<Option<int>> {
    if outbox == [] then None
    else
      var before := ReplayWarranty(outbox[..|outbox| - 1], id);
      match outbox[|outbox| - 1]
      case VehicleCreated(v) => if v.id == id then Some(v.warranty) else before
      case VehicleUpdated(_) => before
      case WarrantyChanged(i, _, warranty) => if i == id then Some(warranty) else before
  }

  /** The row as a reader knows it that only listens to VehicleCreated and VehicleUpdated. */
  function ReplayRow(outbox: seq<Event>, id: int): Option<Vehicle> {
    if outbox == [] then None
    else
      var last := outbox[|outbox| - 1];
      if !last.WarrantyChanged? && last.vehicle.id == id then Some(last.vehicle)
      else ReplayRow(outbox[..|outbox| - 1], id)
  }

  /** Each warranty event's previous value is the one known before it, and differs from the new one;
      a vehicle is created once, and before anything else is said of it. */
  predicate EventFits(before: seq<Event>, e: Event) {
    match e
    case VehicleCreated(v) => ReplayWarranty(before, v.id) == None
    case VehicleUpdated(v) => ReplayWarranty(before, v.id).Some?
    case WarrantyChanged(id, previous, warranty) => ReplayWarranty(before, id) == Some(previous) && warranty != previous
  }

  ghost predicate WarrantyChain(outbox: seq<Event>) {
    forall k :: 0 <= k < |outbox| ==> EventFits(outbox[..k], outbox[k])
  }

  ghost predicate Inv(db: Db) {
    && (forall id :: id in db.vehicles ==> db.vehicles[id].id == id && id < db.nextId)
    && (forall id :: ReplayRow(db.outbox, id) == if id in db.vehicles then Some(db.vehicles[id]) else None)
    && (forall id :: ReplayWarranty(db.outbox, id)
                     == if id in db.vehicles then Some(db.vehicles[id].warranty) else None)
    && WarrantyChain(db.outbox)
  }

  lemma OneMore(outbox: seq<Event>, e: Event)
    requires WarrantyChain(outbox) && EventFits(outbox, e)
    ensures WarrantyChain(outbox + [e])
    ensures (outbox + [e])[..|outbox|] == outbox
  {
    forall k | 0 <= k < |outbox + [e]| ensures EventFits((outbox + [e])[..k], (outbox + [e])[k]) {
      assert k < |outbox| ==> (outbox + [e])[..k] == outbox[..k];
      assert k == |outbox| ==> (outbox + [e])[..k] == outbox;
    }
  }

  lemma RegisterKeepsInv(db: Db, r: Registration, knownModel: bool, now: int)
    requires Inv(db) && RegisterTx(db, r, knownModel, now).Ok?
    ensures Inv(RegisterTx(db, r, knownModel, now).value)
  {
    var db' := RegisterTx(db, r, knownModel, now).value;
    OneMore(db.outbox, VehicleCreated(db'.vehicles[db.nextId]));
  }

  lemma UpdateKeepsInv(db: Db, id: int, u: Update, now: int)
    requires Inv(db) && UpdateTx(db, id, u, now).Ok?
    ensures Inv(UpdateTx(db, id, u, now).value)
  {
    var db' := UpdateTx(db, id, u, now).value;
    if db' != db {
      var saved := db'.vehicles[id];
      RowIsItsOwn(db, id);
      hide Inv;
      if saved.warranty == db.vehicles[id].warranty {
        assert db.outbox + [VehicleUpdated(saved)] + [] == db.outbox + [VehicleUpdated(saved)];
        RewriteKeepsInv(db, id, saved);
      } else {
        RewarrantyKeepsInv(db, id, saved);
      }
    }
  }

  lemma RowIsItsOwn(db: Db, id: int)
    requires Inv(db) && id in db.vehicles
    ensures db.vehicles[id].id == id
  {
  }

  lemma RewriteKeepsInv(db: Db, id: int, saved: Vehicle)
    requires Inv(db) && id in db.vehicles && saved.id == id && saved.warranty == db.vehicles[id].warranty
    ensures Inv(db.(vehicles := db.vehicles[id := saved], outbox := db.outbox + [VehicleUpdated(saved)]))
  {
    OneMore(db.outbox, VehicleUpdated(saved));
    hide WarrantyChain;
  }

  lemma RewarrantyKeepsInv(db: Db, id: int, saved: Vehicle)
    requires Inv(db) && id in db.vehicles && saved.id == id && saved.warranty != db.vehicles[id].warranty
    ensures Inv(db.(vehicles := db.vehicles[id := saved],
                    outbox := db.outbox + [VehicleUpdated(saved)]
                              + [WarrantyChanged(id, db.vehicles[id].warranty, saved.warranty)]))
  {
    var told := db.outbox + [VehicleUpdated(saved)];
    OneMore(db.outbox, VehicleUpdated(saved));
    hide WarrantyChain;
    assert forall i :: ReplayRow(told, i) == if i == id then Some(saved) else ReplayRow(db.outbox, i);
    assert forall i :: ReplayWarranty(told, i) == ReplayWarranty(db.outbox, i);
    OneMore(told, WarrantyChanged(id, db.vehicles[id].warranty, saved.warranty));
  }

  lemma {:induction false} RunKeepsInv(db: Db, actions: seq<Action>)
    requires Inv(db)
    ensures Inv(Run(db, actions))
    decreases |actions|
  {
    if actions != [] {
      match actions[0] {
        case Register(r, knownModel, now) =>
          if RegisterTx(db, r, knownModel, now).Ok? {
            RegisterKeepsInv(db, r, knownModel, now);
          }
        case Change(id, u, now) =>
          if UpdateTx(db, id, u, now).Ok? {
            UpdateKeepsInv(db, id, u, now);
          }
      }
      RunKeepsInv(Exec(db, actions[0]), actions[1..]);
    }
  }

  /** After any run: each WarrantyChanged starts from the value before it, and replaying
      either kind of event gives what is stored. */
  lemma EventsReplayToTheTable(actions: seq<Action>, id: int)
    ensures var db := Run(EMPTY, actions);
      && WarrantyChain(db.outbox)
      && ReplayRow(db.outbox, id) == (if id in db.vehicles then Some(db.vehicles[id]) else None)
      && ReplayWarranty(db.outbox, id) == (if id in db.vehicles then Some(db.vehicles[id].warranty) else None)
  {
    RunKeepsInv(EMPTY, actions);
  }

  /** A scrapped vehicle's row never changes again. */
  lemma {:induction false} ScrappedIsFinal(db: Db, actions: seq<Action>, id: int)
    requires Inv(db) && id in db.vehicles && db.vehicles[id].status == Scrapped
    ensures var end := Run(db, actions); id in end.vehicles && end.vehicles[id] == db.vehicles[id]
    decreases |actions|
  {
    if actions != [] {
      RunKeepsInv(db, [actions[0]]);
      assert Run(db, [actions[0]]) == Exec(db, actions[0]);
      ScrappedIsFinal(Exec(db, actions[0]), actions[1..], id);
    }
  }

  // --- What an update and a registration write ----------------------------------------

  /** What is refused, the first reason first; everything else is accepted. */
  lemma UpdateRefuses(db: Db, id: int, u: Update, now: int)
    ensures var r := UpdateTx(db, id, u, now);
      var empty := u.status.None? && u.warranty.None? && !u.clearWarranty;
      var unclear := (u.clearWarranty && u.warranty.Some?) || (u.status.Some? && u.status.value.Unknown?);
      if empty || unclear || u.updatedAt.None? then r == Err(InvalidInput)
      else if id !in db.vehicles then r == Err(NotFound)
      else if u.updatedAt.value != db.vehicles[id].updatedAt then r == Err(Conflict)
      else if db.vehicles[id].status == Scrapped then r == Err(InvalidState)
      else r.Ok?
  {
  }

  /** The requested status and warranty are stored, and only what changed is stamped and told. */
  lemma UpdateWrites(db: Db, id: int, u: Update, now: int)
    requires UpdateTx(db, id, u, now).Ok?
    ensures id in db.vehicles && id in UpdateTx(db, id, u, now).value.vehicles
    ensures var end := UpdateTx(db, id, u, now).value; var before, after := db.vehicles[id], end.vehicles[id];
      && (match u.status
          case None => after.status == before.status
          case Some(Known(status)) => after.status == status
          case Some(Unknown(_)) => false)
      && (u.clearWarranty ==> after.warranty == None)
      && (!u.clearWarranty && u.warranty.Some? ==> after.warranty == u.warranty)
      && (!u.clearWarranty && u.warranty.None? ==> after.warranty == before.warranty)
      && after.id == before.id && after.vin == before.vin && after.plate == before.plate
      && after.model == before.model && after.createdAt == before.createdAt
      && end.nextId == db.nextId && end.vehicles == db.vehicles[id := after]
    ensures var end := UpdateTx(db, id, u, now).value; var before, after := db.vehicles[id], end.vehicles[id];
      if after.status == before.status && after.warranty == before.warranty then end == db
      else
        && after.updatedAt == now
        && end.outbox == db.outbox + [VehicleUpdated(after)]
                         + if after.warranty == before.warranty then []
                           else [WarrantyChanged(id, before.warranty, after.warranty)]
  {
    var end := UpdateTx(db, id, u, now).value;
    if end == db {
      assert db.vehicles[id := db.vehicles[id]] == db.vehicles;
    }
  }

  /** What is refused, the first reason first; everything else is accepted. */
  lemma RegistrationRefuses(db: Db, r: Registration, knownModel: bool, now: int)
    ensures var tx := RegisterTx(db, r, knownModel, now);
      if r.model <= 0 || (r.status.Some? && r.status.value.Unknown?) then tx == Err(InvalidInput)
      else if exists id :: id in db.vehicles && db.vehicles[id].vin == r.vin then tx == Err(Conflict)
      else if r.plate != "" && exists id :: id in db.vehicles && db.vehicles[id].plate == r.plate
      then tx == Err(Conflict)
      else if !knownModel then tx == Err(InvalidInput)
      else tx.Ok?
  {
  }

  /** A new row carries what was registered, ACTIVE unless it said otherwise, and is told once. */
  lemma RegistrationWrites(db: Db, r: Registration, knownModel: bool, now: int)
    requires Inv(db) && RegisterTx(db, r, knownModel, now).Ok?
    ensures var end := RegisterTx(db, r, knownModel, now).value;
      && db.nextId !in db.vehicles && db.nextId in end.vehicles && end.nextId == db.nextId + 1
      && var v := end.vehicles[db.nextId];
         && v.id == db.nextId && v.vin == r.vin && v.plate == r.plate && v.model == r.model
         && v.warranty == r.warranty && v.createdAt == now && v.updatedAt == now
         && (if r.status.None? then v.status == Active else r.status.value == Known(v.status))
         && end.vehicles - {db.nextId} == db.vehicles && end.outbox == db.outbox + [VehicleCreated(v)]
  {
    var end := RegisterTx(db, r, knownModel, now).value;
    assert end.vehicles - {db.nextId} == db.vehicles;
  }

  // --- One writer per stamp ------------------------------------------------------------

  /** a is an update of id that changes its row on db. */
  predicate ChangesRow(db: Db, a: Action, id: int) {
    a.Change? && a.id == id && Exec(db, a) != db
  }

  /** ... and carries this stamp. */
  predicate ChangesWith(db: Db, a: Action, id: int, stamp: int) {
    ChangesRow(db, a, id) && a.update.updatedAt == Some(stamp)
  }

  /** ... and writes this stamp. */
  predicate Restamps(db: Db, a: Action, id: int, stamp: int) {
    ChangesRow(db, a, id) && a.now == stamp
  }

  /** How many updates carrying the stamp change the row. */
  function Changes(db: Db, actions: seq<Action>, id: int, stamp: int): nat
    decreases |actions|
  {
    if actions == [] then 0
    else (if ChangesWith(db, actions[0], id, stamp) then 1 else 0)
         + Changes(Exec(db, actions[0]), actions[1..], id, stamp)
  }

  /** How many updates write the stamp to the row. */
  function Rewrites(db: Db, actions: seq<Action>, id: int, stamp: int): nat
    decreases |actions|
  {
    if actions == [] then 0
    else (if Restamps(db, actions[0], id, stamp) then 1 else 0)
         + Rewrites(Exec(db, actions[0]), actions[1..], id, stamp)
  }

  /** Of all updates carrying the same updated_at at most one more changes the row than
      updates write that very stamp to it again: at most one, on a clock that moves on. */
  lemma {:induction false} OneChangePerStamp(db: Db, actions: seq<Action>, id: int, stamp: int)
    requires Inv(db)
    ensures Changes(db, actions, id, stamp) <= 1 + Rewrites(db, actions, id, stamp)
    ensures id in db.vehicles && db.vehicles[id].updatedAt != stamp ==>
      Changes(db, actions, id, stamp) <= Rewrites(db, actions, id, stamp)
    decreases |actions|
  {
    if actions != [] {
      RunKeepsInv(db, [actions[0]]);
      assert Run(db, [actions[0]]) == Exec(db, actions[0]);
      OneChangePerStamp(Exec(db, actions[0]), actions[1..], id, stamp);
    }
  }

  /** After one change, a second update with the same stamp changes the row too exactly if the
      first wrote that very stamp again, did not scrap the vehicle, and left something to change. */
  lemma SecondGoesThroughIff(db: Db, id: int, one: Update, two: Update, now: int, later: int)
    requires Inv(db) && ValidUpdate(two) && one.updatedAt == two.updatedAt
    requires UpdateTx(db, id, one, now).Ok? && UpdateTx(db, id, one, now).value != db
    ensures var mid := UpdateTx(db, id, one, now).value; var second := UpdateTx(mid, id, two, later);
      && id in mid.vehicles
      && (second.Ok? && second.value != mid
          <==> && Some(now) == one.updatedAt
               && mid.vehicles[id].status != Scrapped
               && Wanted(mid.vehicles[id], two) != mid.vehicles[id])
  {
    var mid := UpdateTx(db, id, one, now).value;
    var v := mid.vehicles[id];
    if Some(now) == one.updatedAt && v.status != Scrapped && Wanted(v, two) != v {
      var second := UpdateTx(mid, id, two, later).value;
      assert |second.outbox| > |mid.outbox|;
    }
  }

  /** It is turned away as stale exactly if the clock had moved on by then. */
  lemma SecondIsConflictIff(db: Db, id: int, one: Update, two: Update, now: int, later: int)
    requires ValidUpdate(two) && one.updatedAt == two.updatedAt
    requires UpdateTx(db, id, one, now).Ok? && UpdateTx(db, id, one, now).value != db
    ensures UpdateTx(UpdateTx(db, id, one, now).value, id, two, later) == Err(Conflict) <==> Some(now) != one.updatedAt
  {
  }

  /** A clock that stands still lets two updates with one stamp through. */
  lemma StandingClockLosesAnUpdate()
    ensures var v := Vehicle(1, "V", "", 1, None, Active, 5, 5);
      var db := Db(map[1 := v], 2, [VehicleCreated(v)]);
      var one, two := Update(None, Some(10), false, Some(5)), Update(None, Some(20), false, Some(5));
      Changes(db, [Change(1, one, 5), Change(1, two, 5)], 1, 5) == 2
  {
    var v := Vehicle(1, "V", "", 1, None, Active, 5, 5);
    var db := Db(map[1 := v], 2, [VehicleCreated(v)]);
    var one := Change(1, Update(None, Some(10), false, Some(5)), 5);
    var two := Change(1, Update(None, Some(20), false, Some(5)), 5);
    var next := Exec(db, one);
    assert next.vehicles[1] == v.(warranty := Some(10));
    assert Exec(next, two).vehicles[1] == v.(warranty := Some(20));
    assert [one, two][1..] == [two] && [two][1..] == [];
    assert Changes(Exec(next, two), [], 1, 5) == 0;
    assert Changes(next, [two], 1, 5) == 1;
  }
}
