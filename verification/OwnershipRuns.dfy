/** Transfers and first assignments of one vehicle racing each other, statement by statement.

    A transaction's writes show only when it commits. The row lock of a transfer
    is that of the row its select found; a transfer that waited for it looks at
    that row again, and finds nothing if it is no longer CURRENT: a row inserted
    since its select began is not in its snapshot. */
module OwnershipRuns {
  import opened Prelude
  import opened Ownership

  datatype Request =
    | Transfer(from: int, to: int, date: int)
    | Assign(customer: int, date: int, today: int, scrapped: bool)

  /** row is the row found by the transfer's select. */
  datatype Phase =
    | Start
    | Waiting(row: int)
    | Locked(row: int)
    | Closed(row: int)
    | Inserted(row: int)
    | VehicleLocked
    | OwnerInserted
    | Committed
    | Failed(error: Error)
  {
    predicate HoldsRow() {
      Locked? || Closed? || Inserted?
    }

    /** The transaction changed its row, and has not ended. */
    predicate WroteRow() {
      Closed? || Inserted?
    }

    predicate HoldsVehicle() {
      VehicleLocked? || OwnerInserted?
    }

    predicate Ended() {
      Committed? || Failed?
    }
  }

  datatype Tx = Tx(request: Request, phase: Phase)

  datatype World = World(owners: Owners, txs: seq<Tx>)

  datatype Action = Begin(request: Request) | Step(tx: nat) | Abort(tx: nat)

  predicate SomeOtherHoldsRow(w: World, t: nat) {
    exists u :: 0 <= u < |w.txs| && u != t && w.txs[u].phase.HoldsRow()
  }

  predicate SomeOtherWroteRow(w: World, t: nat) {
    exists u :: 0 <= u < |w.txs| && u != t && w.txs[u].phase.WroteRow()
  }

  predicate SomeOtherHoldsVehicle(w: World, t: nat) {
    exists u :: 0 <= u < |w.txs| && u != t && w.txs[u].phase.HoldsVehicle()
  }

  function Go(w: World, t: nat, phase: Phase): World
    requires t < |w.txs|
  {
    w.(txs := w.txs[t := w.txs[t].(phase := phase)])
  }

  /** The next statement of transfer t; it stays where it is if a lock makes it wait. */
  function StepTransfer(w: World, t: nat): World
    requires t < |w.txs| && w.txs[t].request.Transfer?
  {
    var req, rows := w.txs[t].request, w.owners.rows;
    match w.txs[t].phase
    case Start =>
      var i := CurrentRow(rows);
      if i.None? then Go(w, t, Failed(NotFound))
      else if SomeOtherHoldsRow(w, t) then Go(w, t, Waiting(i.value))
      else if rows[i.value].customer != req.from then Go(w, t, Failed(Conflict))
      else Go(w, t, Locked(i.value))
    case Waiting(i) =>
      if SomeOtherHoldsRow(w, t) then w
      else if i < 0 || i >= |rows| || rows[i].status != Current then Go(w, t, Failed(NotFound))
      else if rows[i].customer != req.from then Go(w, t, Failed(Conflict))
      else Go(w, t, Locked(i))
    case Locked(i) =>
      if i < 0 || i >= |rows| || req.date < rows[i].from then Go(w, t, Failed(CheckViolated)) else Go(w, t, Closed(i))
    case Closed(i) =>
      // The foreign key needs the vehicle's row, which an assignment has locked.
      if SomeOtherHoldsVehicle(w, t) then w
      else if exists k :: 0 <= k < |rows| && k != i && rows[k].status == Current then Go(w, t, Failed(Conflict))
      else Go(w, t, Inserted(i))
    case Inserted(i) =>
      if i < 0 || i >= |rows| then w
      else
        Go(w, t, Committed).(owners := Owners(
          rows[i := Close(rows[i], req.date)] + [NewOwner(req.to, req.date)],
          w.owners.events + [VehicleTransferred(req.to, req.from, req.date)]))
    case _ => w
  }

  /** The next statement of assignment t. */
  function StepAssign(w: World, t: nat): World
    requires t < |w.txs| && w.txs[t].request.Assign?
  {
    var req, rows := w.txs[t].request, w.owners.rows;
    match w.txs[t].phase
    case Start =>
      if req.customer <= 0 || req.date > req.today then Go(w, t, Failed(InvalidInput))
      else if SomeOtherHoldsVehicle(w, t) then w
      else if req.scrapped then Go(w, t, Failed(InvalidState))
      else Go(w, t, VehicleLocked)
    case VehicleLocked =>
      // The unique index waits to see how a transaction that changed the row ends.
      if SomeOtherWroteRow(w, t) then w
      else if CurrentRow(rows).Some? then Go(w, t, Failed(Conflict))
      else Go(w, t, OwnerInserted)
    case OwnerInserted =>
      Go(w, t, Committed).(owners := Owners(rows + [NewOwner(req.customer, req.date)],
                                            w.owners.events + [OwnerAssigned(req.customer, req.date)]))
    case _ => w
  }

  function Exec(w: World, a: Action): World {
    match a
    case Begin(request) => w.(txs := w.txs + [Tx(request, Start)])
    case Step(t) =>
      if t >= |w.txs| then w
      else if w.txs[t].request.Transfer? then StepTransfer(w, t) else StepAssign(w, t)
    case Abort(t) => if t >= |w.txs| || w.txs[t].phase.Ended() then w else Go(w, t, Failed(Aborted))
  }

  function Run(w: World, actions: seq<Action>): World
    decreases |actions|
  {
    if actions == [] then w else Run(Exec(w, actions[0]), actions[1..])
  }

  const INITIAL := World(Owners([], []), [])

  // --- Every interleaving ------------------------------------------------------------

  /** A transfer that holds a row holds the last one, and it is its customer's. */
  ghost predicate HolderFits(rows: seq<OwnerRow>, tx: Tx) {
    && (tx.phase.HoldsRow() ==>
         tx.request.Transfer? && tx.phase.row == |rows| - 1 >= 0 && rows[|rows| - 1].customer == tx.request.from)
    && (tx.phase.WroteRow() ==> rows[|rows| - 1].from <= tx.request.date)
    && (tx.phase.HoldsVehicle() ==>
         tx.request.Assign? && tx.request.customer > 0 && tx.request.date <= tx.request.today && !tx.request.scrapped)
    && (tx.phase.OwnerInserted? ==> rows == [])
  }

  ghost predicate Inv(w: World) {
    && WellOwned(w.owners)
    && (forall t :: 0 <= t < |w.txs| ==> HolderFits(w.owners.rows, w.txs[t]))
    && (forall t, u :: 0 <= t < u < |w.txs| ==> !(w.txs[t].phase.HoldsRow() && w.txs[u].phase.HoldsRow()))
    && (forall t, u :: 0 <= t < u < |w.txs| ==> !(w.txs[t].phase.HoldsVehicle() && w.txs[u].phase.HoldsVehicle()))
  }

  lemma GoKeepsInv(w: World, t: nat, phase: Phase)
    requires Inv(w) && t < |w.txs| && HolderFits(w.owners.rows, w.txs[t].(phase := phase))
    requires phase.HoldsRow() ==> !SomeOtherHoldsRow(w, t)
    requires phase.HoldsVehicle() ==> !SomeOtherHoldsVehicle(w, t)
    ensures Inv(Go(w, t, phase))
  {
  }

  lemma StepTransferKeepsInv(w: World, t: nat)
    requires Inv(w) && t < |w.txs| && w.txs[t].request.Transfer?
    ensures Inv(StepTransfer(w, t))
  {
    CurrentIsLast(w.owners.rows);
    assert HolderFits(w.owners.rows, w.txs[t]);
    assert w.txs[t].phase.HoldsRow() ==> !SomeOtherHoldsRow(w, t);
    if w.txs[t].phase.Inserted? {
      CommitTransferKeepsInv(w, t);
    } else {
      hide WellOwned;
      var next := StepTransfer(w, t);
      if next != w {
        assert next == Go(w, t, next.txs[t].phase);
        GoKeepsInv(w, t, next.txs[t].phase);
      }
    }
  }

  lemma CommitTransferKeepsInv(w: World, t: nat)
    requires Inv(w) && t < |w.txs| && w.txs[t].request.Transfer? && w.txs[t].phase.Inserted?
    ensures Inv(StepTransfer(w, t))
  {
    CommitTransfer(w, t);
    var w' := StepTransfer(w, t);
    hide WellOwned, TransferTx;
    forall u | 0 <= u < |w'.txs| ensures HolderFits(w'.owners.rows, w'.txs[u]) {
      assert HolderFits(w.owners.rows, w.txs[t]) && HolderFits(w.owners.rows, w.txs[u]);
    }
  }

  /** A transfer's commit is the transfer run on its own at that moment. */
  lemma CommitTransfer(w: World, t: nat)
    requires Inv(w) && t < |w.txs| && w.txs[t].request.Transfer? && w.txs[t].phase.Inserted?
    ensures var req := w.txs[t].request; var w' := StepTransfer(w, t);
      && TransferTx(w.owners, req.from, req.to, req.date) == Ok(w'.owners)
      && w'.txs == w.txs[t := w.txs[t].(phase := Committed)]
    ensures WellOwned(StepTransfer(w, t).owners)
  {
    var req := w.txs[t].request;
    assert HolderFits(w.owners.rows, w.txs[t]);
    CurrentIsLast(w.owners.rows);
    TransferFailsIff(w.owners, req.from, req.to, req.date);
    TransferKeepsWellOwned(w.owners, req.from, req.to, req.date);
  }

  lemma StepAssignKeepsInv(w: World, t: nat)
    requires Inv(w) && t < |w.txs| && w.txs[t].request.Assign?
    ensures Inv(StepAssign(w, t))
  {
    if w.txs[t].phase.OwnerInserted? {
      CommitAssignKeepsInv(w, t);
    } else {
      CurrentIsLast(w.owners.rows);
      assert HolderFits(w.owners.rows, w.txs[t]);
      assert w.txs[t].phase.HoldsVehicle() ==> !SomeOtherHoldsVehicle(w, t);
      hide WellOwned;
      var next := StepAssign(w, t);
      if next != w {
        assert next == Go(w, t, next.txs[t].phase);
        GoKeepsInv(w, t, next.txs[t].phase);
      }
    }
  }

  /** An assignment's commit is the assignment run on its own at that moment. */
  lemma CommitAssign(w: World, t: nat)
    requires Inv(w) && t < |w.txs| && w.txs[t].request.Assign? && w.txs[t].phase.OwnerInserted?
    ensures var req := w.txs[t].request; var w' := StepAssign(w, t);
      && AssignTx(w.owners, req.customer, req.date, req.today, req.scrapped) == Ok(w'.owners)
      && w'.txs == w.txs[t := w.txs[t].(phase := Committed)]
    ensures w.owners.rows == [] && WellOwned(StepAssign(w, t).owners)
  {
    var req := w.txs[t].request;
    assert HolderFits(w.owners.rows, w.txs[t]);
    AssignKeepsWellOwned(w.owners, req.customer, req.date, req.today, req.scrapped);
  }

  lemma CommitAssignKeepsInv(w: World, t: nat)
    requires Inv(w) && t < |w.txs| && w.txs[t].request.Assign? && w.txs[t].phase.OwnerInserted?
    ensures Inv(StepAssign(w, t))
  {
    CommitAssign(w, t);
    var next := StepAssign(w, t);
    hide WellOwned, CurrentRow, AssignTx;
    forall u | 0 <= u < |next.txs| ensures HolderFits(next.owners.rows, next.txs[u]) {
      assert HolderFits(w.owners.rows, w.txs[u]);
    }
  }

  lemma ExecKeepsInv(w: World, a: Action)
    requires Inv(w)
    ensures Inv(Exec(w, a))
  {
    match a
    case Begin(request) =>
    case Step(t) =>
      if t < |w.txs| {
        if w.txs[t].request.Transfer? {
          StepTransferKeepsInv(w, t);
        } else {
          StepAssignKeepsInv(w, t);
        }
      }
    case Abort(t) =>
  }

  lemma {:induction false} RunKeepsInv(w: World, actions: seq<Action>)
    requires Inv(w)
    ensures Inv(Run(w, actions))
    decreases |actions|
  {
    if actions != [] {
      ExecKeepsInv(w, actions[0]);
      RunKeepsInv(Exec(w, actions[0]), actions[1..]);
    }
  }

  function Replay(events: seq<OwnerEvent>): Option<int> {
    if events == [] then None else Some(OwnerAfter(events[|events| - 1]))
  }

  function Count(rows: seq<OwnerRow>, status: OwnershipStatus): nat {
    if rows == [] then 0
    else Count(rows[..|rows| - 1], status) + if rows[|rows| - 1].status == status then 1 else 0
  }

  lemma {:induction false} NoneCurrent(rows: seq<OwnerRow>)
    requires forall k :: 0 <= k < |rows| ==> rows[k].status != Current
    ensures Count(rows, Current) == 0
  {
    if rows != [] {
      NoneCurrent(rows[..|rows| - 1]);
    }
  }

  /** In every committed state of every schedule, aborts included: once there is an
      owner there is exactly one CURRENT row; every other row was closed on the day
      its successor starts; OwnerAssigned came first and once; every transfer's
      event names the owner before it; and replaying the events gives the owner. */
  lemma OneCurrentOwner(actions: seq<Action>)
    ensures var o := Run(INITIAL, actions).owners; var current := CurrentRow(o.rows);
      && Chain(o.rows) && EventChain(o.events)
      && Count(o.rows, Current) == (if o.events == [] then 0 else 1)
      && Replay(o.events) == (if current.None? then None else Some(o.rows[current.value].customer))
  {
    RunKeepsInv(INITIAL, actions);
    var o := Run(INITIAL, actions).owners;
    CurrentIsLast(o.rows);
    if o.rows != [] {
      NoneCurrent(o.rows[..|o.rows| - 1]);
    }
  }

  /** The log only grows: no schedule takes an owner's row or event back. */
  ghost predicate Extends(o: Owners, o': Owners) {
    o.events <= o'.events && |o.rows| <= |o'.rows|
    && forall k :: 0 <= k < |o.rows| ==> o'.rows[k].customer == o.rows[k].customer && o'.rows[k].from == o.rows[k].from
  }

  lemma {:induction false} HistoryGrows(w: World, actions: seq<Action>)
    ensures Extends(w.owners, Run(w, actions).owners)
    decreases |actions|
  {
    if actions != [] {
      HistoryGrows(Exec(w, actions[0]), actions[1..]);
    }
  }

  // --- The race ------------------------------------------------------------------------

  /** Every transaction transfers the vehicle away from its owner. */
  ghost predicate RaceFrom(o: Owners, txs: seq<Tx>) {
    && WellOwned(o) && o.rows != []
    && forall t :: 0 <= t < |txs| ==>
         && txs[t].request.Transfer? && txs[t].request.from == o.rows[|o.rows| - 1].customer
         && txs[t].request.to != txs[t].request.from
  }

  /** The transfer is dated before the owner's first day. */
  predicate TooEarly(o: Owners, tx: Tx)
    requires o.rows != []
  {
    tx.request.Transfer? && tx.request.date < o.rows[|o.rows| - 1].from
  }

  predicate SameRequests(txs: seq<Tx>, txs': seq<Tx>) {
    |txs'| == |txs| && forall t :: 0 <= t < |txs| ==> txs'[t].request == txs[t].request
  }

  /** On the way to the same row, or turned away for the date. */
  ghost predicate Underway(o: Owners, tx: Tx)
    requires o.rows != []
  {
    var p := tx.phase;
    || p.Start?
    || ((p.Waiting? || p.HoldsRow()) && p.row == |o.rows| - 1 && (p.WroteRow() ==> !TooEarly(o, tx)))
    || (p == Failed(CheckViolated) && TooEarly(o, tx))
  }

  /** Nobody committed yet. */
  ghost predicate Racing(o: Owners, w: World)
    requires o.rows != []
  {
    && w.owners == o
    && (forall t :: 0 <= t < |w.txs| ==> Underway(o, w.txs[t]))
    && (forall t, u :: 0 <= t < u < |w.txs| ==> !(w.txs[t].phase.HoldsRow() && w.txs[u].phase.HoldsRow()))
  }

  /** Not committed, and never to commit. */
  ghost predicate Beaten(o: Owners, tx: Tx)
    requires o.rows != []
  {
    var p := tx.phase;
    || p.Start?
    || (p.Waiting? && p.row == |o.rows| - 1)
    || p == Failed(NotFound) || p == Failed(Conflict)
    || (p == Failed(CheckViolated) && TooEarly(o, tx))
  }

  /** winner committed, and nobody else can. */
  ghost predicate Won(o: Owners, w: World, winner: nat)
    requires o.rows != []
  {
    && winner < |w.txs| && w.txs[winner].phase.Committed? && w.txs[winner].request.Transfer?
    && !TooEarly(o, w.txs[winner])
    && TransferTx(o, w.txs[winner].request.from, w.txs[winner].request.to, w.txs[winner].request.date) == Ok(w.owners)
    && (forall t :: 0 <= t < |w.txs| && t != winner ==> Beaten(o, w.txs[t]))
  }

  lemma RaceStep(o: Owners, w: World, t: nat)
    requires RaceFrom(o, w.txs) && t < |w.txs| && Racing(o, w)
    ensures var w' := Exec(w, Step(t));
      SameRequests(w.txs, w'.txs) && (Racing(o, w') || Won(o, w', t))
  {
    CurrentIsLast(o.rows);
    assert Underway(o, w.txs[t]);
    if w.txs[t].phase.Inserted? {
      var req := w.txs[t].request;
      TransferFailsIff(o, req.from, req.to, req.date);
      assert forall u :: 0 <= u < |w.txs| ==> Underway(o, w.txs[u]);
    } else {
      assert forall k :: 0 <= k < |o.rows| - 1 ==> o.rows[k].status == Transferred;
      assert w.txs[t].phase.HoldsRow() ==> !SomeOtherHoldsRow(w, t);
    }
  }

  lemma WonStep(o: Owners, w: World, winner: nat, t: nat)
    requires RaceFrom(o, w.txs) && t < |w.txs| && Won(o, w, winner)
    ensures var w' := Exec(w, Step(t)); SameRequests(w.txs, w'.txs) && Won(o, w', winner)
  {
    var req := w.txs[winner].request;
    TransferKeepsWellOwned(o, req.from, req.to, req.date);
    CurrentIsLast(o.rows);
    CurrentIsLast(w.owners.rows);
    assert t != winner ==> Beaten(o, w.txs[t]);
  }

  ghost predicate InRace(o: Owners, w: World) {
    RaceFrom(o, w.txs) && (Racing(o, w) || exists winner: nat :: Won(o, w, winner))
  }

  lemma {:induction false} RaceGoesOn(o: Owners, w: World, schedule: seq<nat>)
    requires InRace(o, w)
    ensures InRace(o, Run(w, Steps(schedule))) && SameRequests(w.txs, Run(w, Steps(schedule)).txs)
    decreases |schedule|
  {
    if schedule != [] {
      var t := schedule[0];
      assert Steps(schedule)[0] == Step(t) && Steps(schedule)[1..] == Steps(schedule[1..]);
      if t < |w.txs| {
        if Racing(o, w) {
          RaceStep(o, w, t);
        } else {
          var winner: nat :| Won(o, w, winner);
          WonStep(o, w, winner, t);
        }
      }
      RaceGoesOn(o, Exec(w, Step(t)), schedule[1..]);
    }
  }

  function Steps(schedule: seq<nat>): seq<Action> {
    seq(|schedule|, i requires 0 <= i < |schedule| => Step(schedule[i]))
  }

  /** No transaction can take another step. */
  ghost predicate Stuck(w: World) {
    forall t: nat :: t < |w.txs| ==> Exec(w, Step(t)) == w
  }

  /** As long as a transaction has not ended, one can take a step. */
  lemma RacingMoves(o: Owners, w: World, u: nat)
    requires RaceFrom(o, w.txs) && Racing(o, w) && u < |w.txs| && !w.txs[u].phase.Ended()
    ensures exists t: nat :: t < |w.txs| && Exec(w, Step(t)) != w
  {
    CurrentIsLast(o.rows);
    var t: nat := u;
    if v: nat :| v < |w.txs| && w.txs[v].phase.HoldsRow() {
      t := v;
    }
    assert Underway(o, w.txs[t]) && !SomeOtherHoldsRow(w, t);
    forall v | 0 <= v < |w.txs| ensures !w.txs[v].phase.HoldsVehicle() {
      assert Underway(o, w.txs[v]);
    }
    assert Exec(w, Step(t)).txs[t].phase != w.txs[t].phase || Exec(w, Step(t)).owners != w.owners;
  }

  lemma NoDeadlock(o: Owners, w: World)
    requires InRace(o, w) && Stuck(w)
    ensures forall t :: 0 <= t < |w.txs| ==> w.txs[t].phase.Ended()
  {
    forall t | 0 <= t < |w.txs| ensures w.txs[t].phase.Ended() {
      if Racing(o, w) {
        if !w.txs[t].phase.Ended() {
          RacingMoves(o, w, t);
        }
      } else {
        var winner: nat :| Won(o, w, winner);
        assert t != winner ==> Beaten(o, w.txs[t]);
        assert Exec(w, Step(t)) == w;
        assert Exec(w, Step(t)).txs[t].phase == w.txs[t].phase;
      }
    }
  }

  /** winner's transfer is the whole effect; the others found no row, another owner, or the date too early. */
  ghost predicate OneTransferWon(o: Owners, end: World, winner: nat)
    requires o.rows != []
  {
    && winner < |end.txs| && end.txs[winner].phase == Committed && end.txs[winner].request.Transfer?
    && TransferTx(o, end.txs[winner].request.from, end.txs[winner].request.to, end.txs[winner].request.date)
       == Ok(end.owners)
    && |end.owners.events| == |o.events| + 1
    && forall t :: 0 <= t < |end.txs| && t != winner ==>
         || end.txs[t].phase == Failed(NotFound)
         || end.txs[t].phase == Failed(Conflict)
         || (end.txs[t].phase == Failed(CheckViolated) && TooEarly(o, end.txs[t]))
  }

  /** Of any number of transfers of a vehicle away from its owner, run to the end in any
      schedule, exactly one commits if any is dated from the owner's first day on: the
      result is that transfer alone, with its one event. If none is, all are turned away
      for the date and nothing changes. */
  lemma ExactlyOneTransferWins(o: Owners, txs: seq<Tx>, schedule: seq<nat>)
    requires RaceFrom(o, txs) && forall t :: 0 <= t < |txs| ==> txs[t].phase == Start
    requires Stuck(Run(World(o, txs), Steps(schedule)))
    ensures var end := Run(World(o, txs), Steps(schedule));
      if exists t :: 0 <= t < |txs| && !TooEarly(o, txs[t])
      then exists winner: nat :: OneTransferWon(o, end, winner)
      else end.owners == o && forall t :: 0 <= t < |end.txs| ==> end.txs[t].phase == Failed(CheckViolated)
  {
    var w := World(o, txs);
    assert Racing(o, w);
    RaceGoesOn(o, w, schedule);
    var end := Run(w, Steps(schedule));
    NoDeadlock(o, end);
    if Racing(o, end) {
      forall t | 0 <= t < |txs| ensures TooEarly(o, txs[t]) && end.txs[t].phase == Failed(CheckViolated) {
        assert Underway(o, end.txs[t]) && end.txs[t].phase.Ended();
      }
    } else {
      var winner: nat :| Won(o, end, winner);
      WonIsOne(o, end, winner);
      assert 0 <= winner < |txs| && !TooEarly(o, txs[winner]);
      hide Won, OneTransferWon, TooEarly;
    }
  }

  lemma WonIsOne(o: Owners, end: World, winner: nat)
    requires o.rows != [] && Won(o, end, winner) && forall t :: 0 <= t < |end.txs| ==> end.txs[t].phase.Ended()
    ensures OneTransferWon(o, end, winner)
  {
    forall t | 0 <= t < |end.txs| && t != winner ensures end.txs[t].phase.Failed? && Beaten(o, end.txs[t]) {
      assert end.txs[t].phase.Ended();
    }
  }

  function StepsLeft(p: Phase): nat {
    match p
    case Start => 5
    case Waiting(_) => 4
    case Locked(_) => 3
    case VehicleLocked => 2
    case Closed(_) => 2
    case Inserted(_) => 1
    case OwnerInserted => 1
    case _ => 0
  }

  function Left(txs: seq<Tx>): nat {
    if txs == [] then 0 else Left(txs[..|txs| - 1]) + StepsLeft(txs[|txs| - 1].phase)
  }

  lemma {:induction false} LeftAfter(txs: seq<Tx>, t: nat, tx: Tx)
    requires t < |txs|
    ensures Left(txs[t := tx]) == Left(txs) - StepsLeft(txs[t].phase) + StepsLeft(tx.phase)
  {
    var n := |txs| - 1;
    if t < n {
      LeftAfter(txs[..n], t, tx);
      assert txs[t := tx][..n] == txs[..n][t := tx];
    } else {
      assert txs[t := tx][..n] == txs[..n];
    }
  }

  /** Every schedule gets stuck: a step that changes anything leaves fewer to take. */
  lemma SchedulesEnd(w: World, t: nat)
    ensures Exec(w, Step(t)) == w || Left(Exec(w, Step(t)).txs) < Left(w.txs)
  {
    if t < |w.txs| {
      StepMovesOne(w, t);
      hide Exec;
      LeftAfter(w.txs, t, Exec(w, Step(t)).txs[t]);
    }
  }

  /** A step that changes anything moves its transaction on. */
  lemma StepMovesOne(w: World, t: nat)
    requires t < |w.txs|
    ensures var next := Exec(w, Step(t));
      && |next.txs| == |w.txs| && next.txs == w.txs[t := next.txs[t]]
      && (next == w || StepsLeft(next.txs[t].phase) < StepsLeft(w.txs[t].phase))
  {
    hide SomeOtherHoldsRow, SomeOtherWroteRow, SomeOtherHoldsVehicle, CurrentRow;
    if w.txs[t].request.Transfer? {
      TransferMovesOne(w, t);
    } else {
      AssignMovesOne(w, t);
    }
    hide StepTransfer, StepAssign;
  }

  lemma TransferMovesOne(w: World, t: nat)
    requires t < |w.txs| && w.txs[t].request.Transfer?
    ensures var next := StepTransfer(w, t);
      && |next.txs| == |w.txs| && next.txs == w.txs[t := next.txs[t]]
      && (next == w || StepsLeft(next.txs[t].phase) < StepsLeft(w.txs[t].phase))
  {
    hide SomeOtherHoldsRow, SomeOtherHoldsVehicle, CurrentRow, Close, NewOwner;
  }

  lemma AssignMovesOne(w: World, t: nat)
    requires t < |w.txs| && w.txs[t].request.Assign?
    ensures var next := StepAssign(w, t);
      && |next.txs| == |w.txs| && next.txs == w.txs[t := next.txs[t]]
      && (next == w || StepsLeft(next.txs[t].phase) < StepsLeft(w.txs[t].phase))
  {
    hide SomeOtherWroteRow, SomeOtherHoldsVehicle, CurrentRow, NewOwner;
  }

  // --- Alone ------------------------------------------------------------------------------

  /** A transfer that nobody disturbs does what the service's method does. */
  lemma TransferAlone(o: Owners, from: int, to: int, date: int)
    requires WellOwned(o)
    ensures var w := World(o, [Tx(Transfer(from, to, date), Start)]);
      var end := Exec(Exec(Exec(Exec(w, Step(0)), Step(0)), Step(0)), Step(0));
      var tx := TransferTx(o, from, to, date);
      && end.owners == (if tx.Ok? then tx.value else o)
      && end.txs[0].phase == if tx.Ok? then Committed else Failed(tx.error)
  {
    CurrentIsLast(o.rows);
    TransferFailsIff(o, from, to, date);
  }

  lemma AssignAlone(o: Owners, customer: int, date: int, today: int, scrapped: bool)
    requires WellOwned(o)
    ensures var w := World(o, [Tx(Assign(customer, date, today, scrapped), Start)]);
      var end := Exec(Exec(Exec(w, Step(0)), Step(0)), Step(0));
      var tx := AssignTx(o, customer, date, today, scrapped);
      && end.owners == (if tx.Ok? then tx.value else o)
      && end.txs[0].phase == if tx.Ok? then Committed else Failed(tx.error)
  {
    CurrentIsLast(o.rows);
  }
}
