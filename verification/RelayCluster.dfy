/** Any number of relays over one outbox table: billing's replicas, which share
    an advisory lock, and the Go services' relays, which share nothing.

    A send that fails may still reach the broker, at once, much later, or more
    than once. A pass may be abandoned after it published: its transaction
    rolled back, marking failed, or its process died. */
module RelayCluster {
  import opened Prelude
  import opened Outbox

  /** A relay between fetching its batch and marking what it published. */
  datatype Pass = Pass(batch: seq<int>, done: nat, stopped: bool)

  /** keys knows every row that was ever visible; limbo holds failed sends that may yet arrive. */
  datatype Cluster = Cluster(
    rows: seq<Row>, keys: map<int, int>, log: seq<int>, limbo: set<int>, passes: map<int, Pass>)

  datatype Action =
    | Visible(id: int, key: int)
    | Begin(relay: int)
    | Publish(relay: int, acked: bool)
    | Finish(relay: int, now: int)
    | Abandon(relay: int)
    | Arrive(id: int)
    | Cleanup(cutoff: int)

  datatype Mode = Mode(batchSize: nat, locking: bool)

  const INITIAL := Cluster([], map[], [], {}, map[])

  function Insert(rows: seq<Row>, row: Row): seq<Row> {
    if rows == [] || rows[|rows| - 1].id < row.id then rows + [row]
    else Insert(rows[..|rows| - 1], row) + [rows[|rows| - 1]]
  }

  /** A row becomes visible after every earlier row of its key. */
  ghost predicate InKeyOrder(s: Cluster, id: int, key: int) {
    id !in s.keys && forall a :: a in s.keys && s.keys[a] == key ==> a < id
  }

  ghost function Exec(mode: Mode, s: Cluster, a: Action): Cluster {
    match a
    case Visible(id, key) =>
      if !InKeyOrder(s, id, key) then s
      else s.(rows := Insert(s.rows, Row(id, key, None)), keys := s.keys[id := key])
    case Begin(r) =>
      if r in s.passes || (mode.locking && s.passes != map[]) then s
      else s.(passes := s.passes[r := Pass(Batch(s.rows, mode.batchSize), 0, false)])
    case Publish(r, acked) =>
      if r !in s.passes || s.passes[r].stopped || s.passes[r].done >= |s.passes[r].batch| then s
      else
        var p := s.passes[r];
        if acked then s.(log := s.log + [p.batch[p.done]], passes := s.passes[r := p.(done := p.done + 1)])
        else s.(limbo := s.limbo + {p.batch[p.done]}, passes := s.passes[r := p.(stopped := true)])
    case Finish(r, now) =>
      if r !in s.passes || !(s.passes[r].stopped || s.passes[r].done >= |s.passes[r].batch|) then s
      else
        var p := s.passes[r];
        var n := if p.done <= |p.batch| then p.done else |p.batch|;
        s.(rows := Marked(s.rows, p.batch[..n], now), passes := s.passes - {r})
    case Abandon(r) => s.(passes := s.passes - {r})
    case Arrive(id) => if id in s.limbo then s.(log := s.log + [id]) else s
    case Cleanup(cutoff) => s.(rows := Cleaned(s.rows, cutoff))
  }

  ghost function Run(mode: Mode, s: Cluster, actions: seq<Action>): Cluster
    decreases |actions|
  {
    if actions == [] then s else Run(mode, Exec(mode, s, actions[0]), actions[1..])
  }

  // --- The invariant -----------------------------------------------------------

  /** Every earlier row of id's key is in the log, or among ids. */
  ghost predicate EarlierSent(s: Cluster, id: int, ids: seq<int>) {
    id in s.keys && forall a :: a in s.keys && s.keys[a] == s.keys[id] && a < id ==> a in s.log || a in ids
  }

  ghost predicate PassOk(s: Cluster, p: Pass) {
    && p.done <= |p.batch|
    && (forall i :: 0 <= i < |p.batch| ==> EarlierSent(s, p.batch[i], p.batch[..i]))
    && (forall i :: 0 <= i < p.done ==> p.batch[i] in s.log)
  }

  /** Entry j of the log comes after the first entry of every earlier row of its key. */
  ghost predicate EntryOk(s: Cluster, j: nat)
    requires j < |s.log|
  {
    && s.log[j] in s.keys
    && forall a :: a in s.keys && s.keys[a] == s.keys[s.log[j]] && a < s.log[j] ==> a in s.log[..j]
  }

  ghost predicate Inv(s: Cluster) {
    && Sorted(s.rows)
    && (forall i :: 0 <= i < |s.rows| ==> s.rows[i].id in s.keys && s.keys[s.rows[i].id] == s.rows[i].key)
    && (forall id :: id in s.keys ==> id in s.log || IsPending(s.rows, id))
    && (forall j :: 0 <= j < |s.log| ==> EntryOk(s, j))
    && (forall id :: id in s.limbo ==> EarlierSent(s, id, []))
    && (forall r :: r in s.passes ==> PassOk(s, s.passes[r]))
  }

  lemma {:induction false} InsertKeepsSorted(rows: seq<Row>, row: Row)
    requires Sorted(rows) && forall i :: 0 <= i < |rows| ==> rows[i].id != row.id
    ensures Sorted(Insert(rows, row))
    ensures forall r :: r in Insert(rows, row) <==> r in rows || r == row
  {
    if rows != [] && !(rows[|rows| - 1].id < row.id) {
      var init, last := rows[..|rows| - 1], rows[|rows| - 1];
      InsertKeepsSorted(init, row);
      var inserted := Insert(init, row);
      forall i | 0 <= i < |inserted| ensures inserted[i].id < last.id {
        assert inserted[i] in inserted;
      }
      assert forall r :: r in rows <==> r in init || r == last;
    }
  }

  lemma PendingIsAbout(rows: seq<Row>, id: int)
    ensures IsPending(rows, id) <==> exists r :: r in rows && r.id == id && r.publishedAt.None?
  {
    if r :| r in rows && r.id == id && r.publishedAt.None? {
      var i :| 0 <= i < |rows| && rows[i] == r;
    }
  }

  lemma VisibleKeepsInv(s: Cluster, id: int, key: int)
    requires Inv(s) && InKeyOrder(s, id, key)
    ensures Inv(s.(rows := Insert(s.rows, Row(id, key, None)), keys := s.keys[id := key]))
  {
    var row := Row(id, key, None);
    var s' := s.(rows := Insert(s.rows, row), keys := s.keys[id := key]);
    InsertKeepsSorted(s.rows, row);
    forall i | 0 <= i < |s'.rows| ensures s'.rows[i].id in s'.keys && s'.keys[s'.rows[i].id] == s'.rows[i].key {
      assert s'.rows[i] in s'.rows;
    }
    forall a | a in s'.keys ensures a in s'.log || IsPending(s'.rows, a) {
      PendingIsAbout(s.rows, a);
      PendingIsAbout(s'.rows, a);
      if a == id {
        assert row in s'.rows;
      }
    }
    forall j | 0 <= j < |s'.log| ensures EntryOk(s', j) {
      assert EntryOk(s, j);
    }
    forall x | x in s'.limbo ensures EarlierSent(s', x, []) {
      assert EarlierSent(s, x, []);
    }
    forall r | r in s'.passes ensures PassOk(s', s'.passes[r]) {
      var p := s'.passes[r];
      assert PassOk(s, p);
      forall i | 0 <= i < |p.batch| ensures EarlierSent(s', p.batch[i], p.batch[..i]) {
        assert EarlierSent(s, p.batch[i], p.batch[..i]);
      }
    }
  }

  /** A fresh batch holds, for each of its rows, every earlier row of the key not yet sent. */
  lemma FreshBatchIsOk(mode: Mode, s: Cluster)
    requires Inv(s)
    ensures PassOk(s, Pass(Batch(s.rows, mode.batchSize), 0, false))
  {
    var batch, pending := Batch(s.rows, mode.batchSize), Pending(s.rows);
    PendingAre(s.rows);
    forall i | 0 <= i < |batch| ensures EarlierSent(s, batch[i], batch[..i]) {
      assert batch[i] == pending[i] && pending[i] in pending && IsPending(s.rows, batch[i]);
      forall a | a in s.keys && s.keys[a] == s.keys[batch[i]] && a < batch[i] ensures a in s.log || a in batch[..i] {
        if a !in s.log {
          assert a in pending;
          var k :| 0 <= k < |pending| && pending[k] == a;
          assert k < i;
          assert batch[..i][k] == a;
        }
      }
    }
  }

  /** Sending a row whose earlier ones are all in the log keeps the log in order. */
  lemma LoggingKeepsInv(s: Cluster, id: int)
    requires Inv(s) && EarlierSent(s, id, [])
    ensures Inv(s.(log := s.log + [id]))
  {
    var s' := s.(log := s.log + [id]);
    forall j | 0 <= j < |s'.log| ensures EntryOk(s', j) {
      assert s'.log[..|s.log|] == s.log;
      if j < |s.log| {
        assert EntryOk(s, j) && s'.log[..j] == s.log[..j];
      }
    }
    forall x | x in s'.limbo ensures EarlierSent(s', x, []) {
      assert EarlierSent(s, x, []);
    }
    forall r | r in s'.passes ensures PassOk(s', s'.passes[r]) {
      var p := s'.passes[r];
      assert PassOk(s, p);
      forall i | 0 <= i < |p.batch| ensures EarlierSent(s', p.batch[i], p.batch[..i]) {
        assert EarlierSent(s, p.batch[i], p.batch[..i]);
      }
    }
  }

  lemma PublishKeepsInv(mode: Mode, s: Cluster, r: int, acked: bool)
    requires Inv(s)
    ensures Inv(Exec(mode, s, Publish(r, acked)))
  {
    if r in s.passes && !s.passes[r].stopped && s.passes[r].done < |s.passes[r].batch| {
      var p := s.passes[r];
      assert PassOk(s, p);
      var id := p.batch[p.done];
      assert EarlierSent(s, id, []) by {
        assert EarlierSent(s, id, p.batch[..p.done]);
      }
      if acked {
        LoggingKeepsInv(s, id);
        var mid := s.(log := s.log + [id]);
        assert PassOk(mid, p) && id in mid.log;
        KeepingLogAndKeys(mid, Exec(mode, s, Publish(r, acked)));
      } else {
        KeepingLogAndKeys(s, Exec(mode, s, Publish(r, acked)));
      }
    }
  }

  lemma FinishKeepsInv(mode: Mode, s: Cluster, r: int, now: int)
    requires Inv(s)
    ensures Inv(Exec(mode, s, Finish(r, now)))
  {
    var s' := Exec(mode, s, Finish(r, now));
    if s' != s {
      var p := s.passes[r];
      assert PassOk(s, p);
      forall id | id in s'.keys ensures id in s'.log || IsPending(s'.rows, id) {
        if id !in s.log {
          var i :| 0 <= i < |s.rows| && s.rows[i].id == id && s.rows[i].publishedAt.None?;
          assert s'.rows[i] == s.rows[i];
        }
      }
      KeepingLogAndKeys(s, s');
    }
  }

  lemma CleanupKeepsInv(s: Cluster, cutoff: int)
    requires Inv(s)
    ensures Inv(s.(rows := Cleaned(s.rows, cutoff)))
  {
    var s' := s.(rows := Cleaned(s.rows, cutoff));
    CleanupDeletesExactly(s.rows, cutoff);
    CleanupKeepsPending(s.rows, cutoff);
    PendingAre(s.rows);
    PendingAre(s'.rows);
    forall i | 0 <= i < |s'.rows| ensures s'.rows[i].id in s'.keys && s'.keys[s'.rows[i].id] == s'.rows[i].key {
      assert s'.rows[i] in s'.rows;
    }
    KeepingLogAndKeys(s, s');
  }

  lemma KeepingLogAndKeys(s: Cluster, s': Cluster)
    requires Inv(s) && s'.log == s.log && s'.keys == s.keys
    requires forall id :: id in s'.limbo ==> EarlierSent(s, id, [])
    requires forall r :: r in s'.passes ==> PassOk(s, s'.passes[r])
    ensures forall j :: 0 <= j < |s'.log| ==> EntryOk(s', j)
    ensures forall id :: id in s'.limbo ==> EarlierSent(s', id, [])
    ensures forall r :: r in s'.passes ==> PassOk(s', s'.passes[r])
  {
    forall j | 0 <= j < |s'.log| ensures EntryOk(s', j) {
      assert EntryOk(s, j);
    }
    forall id | id in s'.limbo ensures EarlierSent(s', id, []) {
      assert EarlierSent(s, id, []);
    }
    forall r | r in s'.passes ensures PassOk(s', s'.passes[r]) {
      var p := s'.passes[r];
      assert PassOk(s, p);
      forall i | 0 <= i < |p.batch| ensures EarlierSent(s', p.batch[i], p.batch[..i]) {
        assert EarlierSent(s, p.batch[i], p.batch[..i]);
      }
    }
  }

  lemma ExecKeepsInv(mode: Mode, s: Cluster, a: Action)
    requires Inv(s)
    ensures Inv(Exec(mode, s, a))
  {
    match a
    case Visible(id, key) =>
      if InKeyOrder(s, id, key) {
        VisibleKeepsInv(s, id, key);
      }
    case Begin(r) =>
      FreshBatchIsOk(mode, s);
      KeepingLogAndKeys(s, Exec(mode, s, a));
    case Publish(r, acked) => PublishKeepsInv(mode, s, r, acked);
    case Finish(r, now) => FinishKeepsInv(mode, s, r, now);
    case Abandon(r) => KeepingLogAndKeys(s, Exec(mode, s, a));
    case Arrive(id) =>
      if id in s.limbo {
        LoggingKeepsInv(s, id);
      }
    case Cleanup(cutoff) => CleanupKeepsInv(s, cutoff);
  }

  lemma {:induction false} RunKeepsInv(mode: Mode, s: Cluster, actions: seq<Action>)
    requires Inv(s)
    ensures Inv(Run(mode, s, actions))
    decreases |actions|
  {
    if actions != [] {
      ExecKeepsInv(mode, s, actions[0]);
      RunKeepsInv(mode, Exec(mode, s, actions[0]), actions[1..]);
    }
  }

  // --- What it means ------------------------------------------------------------

  /** With any number of relays, locked or not, and any faults: the broker first
      sees the rows of one key in order of id. */
  lemma FirstSeenInOrder(mode: Mode, actions: seq<Action>, a: int, j: nat)
    ensures var s := Run(mode, INITIAL, actions);
      j < |s.log| && a in s.keys && s.log[j] in s.keys && s.keys[a] == s.keys[s.log[j]] && a < s.log[j] ==>
        exists i :: 0 <= i < j && s.log[i] == a
  {
    RunKeepsInv(mode, INITIAL, actions);
    var s := Run(mode, INITIAL, actions);
    if j < |s.log| && a in s.keys && s.log[j] in s.keys && s.keys[a] == s.keys[s.log[j]] && a < s.log[j] {
      assert EntryOk(s, j) && a in s.log[..j];
    }
  }

  /** No event is lost: whatever was written is in the log or still waiting, and
      whatever is marked published, or deleted, is in the log. */
  lemma NothingIsLost(mode: Mode, actions: seq<Action>, id: int)
    ensures var s := Run(mode, INITIAL, actions);
      && (id in s.keys ==> id in s.log || id in Pending(s.rows))
      && (id in s.keys && id !in Pending(s.rows) ==> id in s.log)
      && (forall i :: 0 <= i < |s.rows| && s.rows[i].publishedAt.Some? ==> s.rows[i].id in s.log)
  {
    RunKeepsInv(mode, INITIAL, actions);
    var s := Run(mode, INITIAL, actions);
    PendingAre(s.rows);
    forall i | 0 <= i < |s.rows| && s.rows[i].publishedAt.Some? ensures s.rows[i].id in s.log {
      assert s.rows[i].id in s.keys;
      assert !IsPending(s.rows, s.rows[i].id);
    }
  }

  // --- A pass that runs alone ---------------------------------------------------

  /** Relay r sends the rest of its batch and nothing else moves. */
  ghost function SendRest(mode: Mode, s: Cluster, r: int, answers: nat -> Answer): Cluster
    requires r in s.passes && s.passes[r].done <= |s.passes[r].batch|
    decreases |s.passes[r].batch| - s.passes[r].done
  {
    var p := s.passes[r];
    if p.stopped || p.done == |p.batch| then s
    else if answers(p.done) == Acked then SendRest(mode, Exec(mode, s, Publish(r, true)), r, answers)
    else
      var failed := Exec(mode, s, Publish(r, false));
      if answers(p.done) == Delivered then Exec(mode, failed, Arrive(p.batch[p.done])) else failed
  }

  lemma {:induction false} SendRestSends(mode: Mode, s: Cluster, r: int, answers: nat -> Answer)
    requires r in s.passes && !s.passes[r].stopped && s.passes[r].done <= |s.passes[r].batch|
    requires Acks(answers, s.passes[r].done) == s.passes[r].done
    ensures var batch := s.passes[r].batch; var s' := SendRest(mode, s, r, answers);
      && s'.log == s.log + Sent(batch, answers)[s.passes[r].done..]
      && r in s'.passes && s'.passes[r].batch == batch && s'.passes[r].done == Acks(answers, |batch|)
      && (s'.passes[r].stopped || s'.passes[r].done == |batch|) && s'.rows == s.rows
    decreases |s.passes[r].batch| - s.passes[r].done
  {
    var p := s.passes[r];
    SendRestUnfolds(mode, s, r, answers);
    hide Exec, Sent, SendRest, Acks;
    if p.done < |p.batch| {
      SentFrom(p.batch, answers, p.done);
      SendOne(mode, s, r);
      if answers(p.done) == Acked {
        SendRestSends(mode, Exec(mode, s, Publish(r, true)), r, answers);
      }
    } else {
      SentAll(p.batch, answers);
    }
  }

  lemma SendRestUnfolds(mode: Mode, s: Cluster, r: int, answers: nat -> Answer)
    requires r in s.passes && !s.passes[r].stopped && s.passes[r].done <= |s.passes[r].batch|
    ensures var p := s.passes[r]; var failed := Exec(mode, s, Publish(r, false));
      p.done == |p.batch| ==> SendRest(mode, s, r, answers) == s
    ensures var p := s.passes[r]; var next := Exec(mode, s, Publish(r, true));
      p.done < |p.batch| && answers(p.done) == Acked ==>
        r in next.passes && next.passes[r] == p.(done := p.done + 1)
        && SendRest(mode, s, r, answers) == SendRest(mode, next, r, answers)
    ensures var p := s.passes[r]; var failed := Exec(mode, s, Publish(r, false));
      p.done < |p.batch| && answers(p.done) != Acked ==>
        SendRest(mode, s, r, answers)
        == if answers(p.done) == Delivered then Exec(mode, failed, Arrive(p.batch[p.done])) else failed
  {
  }

  lemma SentAll(batch: seq<int>, answers: nat -> Answer)
    requires Acks(answers, |batch|) == |batch|
    ensures |Sent(batch, answers)| == |batch|
  {
  }

  /** A send either moves the pass on or stops it; a failed send can still arrive. */
  lemma SendOne(mode: Mode, s: Cluster, r: int)
    requires r in s.passes && !s.passes[r].stopped && s.passes[r].done < |s.passes[r].batch|
    ensures var p := s.passes[r]; var next := Exec(mode, s, Publish(r, true));
      && next.log == s.log + [p.batch[p.done]] && next.rows == s.rows
      && r in next.passes && next.passes[r] == p.(done := p.done + 1)
    ensures var p := s.passes[r]; var failed := Exec(mode, s, Publish(r, false));
      && failed.log == s.log && failed.rows == s.rows
      && r in failed.passes && failed.passes[r] == p.(stopped := true)
      && Exec(mode, failed, Arrive(p.batch[p.done])) == failed.(log := s.log + [p.batch[p.done]])
  {
  }

  /** What is sent from row i on, if all rows before it were acknowledged. */
  lemma SentFrom(batch: seq<int>, answers: nat -> Answer, i: nat)
    requires i < |batch| && Acks(answers, i) == i
    ensures i <= |Sent(batch, answers)| && (answers(i) == Acked ==> i < |Sent(batch, answers)|)
    ensures Sent(batch, answers)[i..]
         == if answers(i) == Acked then [batch[i]] + Sent(batch, answers)[i + 1..]
            else if answers(i) == Delivered then [batch[i]] else []
    ensures if answers(i) == Acked then Acks(answers, i + 1) == i + 1 && Acks(answers, |batch|) > i
            else Acks(answers, |batch|) == i
  {
    if answers(i) == Acked {
      AcksPassOn(answers, i + 1, |batch|);
    } else {
      AcksStopAt(answers, i, |batch|);
    }
  }

  lemma {:induction false} AcksPassOn(answers: nat -> Answer, i: nat, n: nat)
    requires i <= n && Acks(answers, i) == i
    ensures Acks(answers, n) >= i
  {
    if i < n {
      AcksPassOn(answers, i, n - 1);
    }
  }

  /** Alone, a relay's pass sends and marks exactly what the relay's loop does. */
  lemma PassAloneIsTheLoop(mode: Mode, s: Cluster, r: int, answers: nat -> Answer, now: int)
    requires s.passes == map[]
    ensures var batch := Batch(s.rows, mode.batchSize);
      var s' := Exec(mode, SendRest(mode, Exec(mode, s, Begin(r)), r, answers), Finish(r, now));
      && s'.log == s.log + Sent(batch, answers)
      && s'.rows == Marked(s.rows, batch[..Acks(answers, |batch|)], now)
  {
    SendRestSends(mode, Exec(mode, s, Begin(r)), r, answers);
  }

  // --- What the lock adds -------------------------------------------------------

  predicate Faultless(a: Action) {
    (a.Publish? ==> a.acked) && !a.Abandon?
  }

  /** Under the lock and without faults, nothing is sent that was sent before. */
  ghost predicate Once(s: Cluster) {
    && (forall i, j :: 0 <= i < j < |s.log| ==> s.log[i] != s.log[j])
    && s.limbo == {}
    && (forall r, q :: r in s.passes && q in s.passes ==> r == q)
    && (forall r :: r in s.passes ==> PassOnce(s, s.passes[r]))
    && (forall id :: IsPending(s.rows, id) && id in s.log ==>
         exists r :: r in s.passes && id in s.passes[r].batch[..Sofar(s.passes[r])])
  }

  function Sofar(p: Pass): nat {
    if p.done <= |p.batch| then p.done else |p.batch|
  }

  ghost predicate PassOnce(s: Cluster, p: Pass) {
    && !p.stopped && Ascending(p.batch)
    && (forall i :: p.done <= i < |p.batch| ==> p.batch[i] !in s.log)
  }

  lemma ExecKeepsOnce(mode: Mode, s: Cluster, a: Action)
    requires mode.locking && Inv(s) && Once(s) && Faultless(a)
    ensures Once(Exec(mode, s, a))
  {
    var s' := Exec(mode, s, a);
    match a
    case Visible(id, key) =>
      if InKeyOrder(s, id, key) {
        InsertKeepsSorted(s.rows, Row(id, key, None));
        assert forall j :: 0 <= j < |s.log| ==> EntryOk(s, j);
        forall x | IsPending(s'.rows, x) && x in s'.log ensures IsPending(s.rows, x) {
          PendingIsAbout(s'.rows, x);
          var r :| r in s'.rows && r.id == x && r.publishedAt.None?;
          assert x != id by {
            var j :| 0 <= j < |s.log| && s.log[j] == x;
            assert EntryOk(s, j);
          }
          assert r in s.rows;
          PendingIsAbout(s.rows, x);
        }
      }
    case Begin(r) =>
      if s' != s {
        BeginKeepsOnce(mode, s, r);
      }
    case Publish(r, acked) =>
      if s' != s {
        PublishKeepsOnce(mode, s, r);
      }
    case Finish(r, now) =>
      if s' != s {
        FinishKeepsOnce(mode, s, r, now);
      }
    case Cleanup(cutoff) =>
      CleanupDeletesExactly(s.rows, cutoff);
      forall x | IsPending(s'.rows, x) ensures IsPending(s.rows, x) {
        PendingIsAbout(s.rows, x);
        PendingIsAbout(s'.rows, x);
      }
    case Arrive(id) =>
    case Abandon(r) =>
  }

  lemma BeginKeepsOnce(mode: Mode, s: Cluster, r: int)
    requires mode.locking && Inv(s) && Once(s) && r !in s.passes && s.passes == map[]
    ensures Once(Exec(mode, s, Begin(r)))
  {
    var batch, pending := Batch(s.rows, mode.batchSize), Pending(s.rows);
    PendingAre(s.rows);
    forall i | 0 <= i < |batch| ensures batch[i] !in s.log {
      assert batch[i] == pending[i] && pending[i] in pending;
    }
  }

  lemma PublishKeepsOnce(mode: Mode, s: Cluster, r: int)
    requires mode.locking && Inv(s) && Once(s) && r in s.passes && s.passes[r].done < |s.passes[r].batch|
    ensures Once(Exec(mode, s, Publish(r, true)))
  {
    var s' := Exec(mode, s, Publish(r, true));
    var p, p' := s.passes[r], s'.passes[r];
    assert PassOnce(s, p) && p'.batch[..p'.done] == p.batch[..p.done] + [p.batch[p.done]];
    forall id | IsPending(s'.rows, id) && id in s'.log ensures id in p'.batch[..Sofar(p')] {
      if id in s.log {
        assert id in p.batch[..Sofar(p)];
      }
    }
  }

  lemma FinishKeepsOnce(mode: Mode, s: Cluster, r: int, now: int)
    requires mode.locking && Inv(s) && Once(s) && r in s.passes && s.passes[r].done >= |s.passes[r].batch|
    ensures Once(Exec(mode, s, Finish(r, now)))
  {
    var s' := Exec(mode, s, Finish(r, now));
    var p := s.passes[r];
    forall id | IsPending(s'.rows, id) ensures id !in s'.log {
      var i :| 0 <= i < |s'.rows| && s'.rows[i].id == id && s'.rows[i].publishedAt.None?;
      assert s.rows[i].id == id && IsPending(s.rows, id);
      assert id !in p.batch[..Sofar(p)];
    }
  }

  lemma {:induction false} RunKeepsOnce(mode: Mode, s: Cluster, actions: seq<Action>)
    requires mode.locking && Inv(s) && Once(s)
    requires forall i :: 0 <= i < |actions| ==> Faultless(actions[i])
    ensures Inv(Run(mode, s, actions)) && Once(Run(mode, s, actions))
    decreases |actions|
  {
    if actions != [] {
      ExecKeepsInv(mode, s, actions[0]);
      ExecKeepsOnce(mode, s, actions[0]);
      RunKeepsOnce(mode, Exec(mode, s, actions[0]), actions[1..]);
    }
  }

  /** Nothing is in the log twice, and one key's rows are there in order of id. */
  ghost predicate OnceInOrder(s: Cluster) {
    forall i, j :: 0 <= i < j < |s.log| ==>
      && s.log[i] != s.log[j]
      && (s.log[i] in s.keys && s.log[j] in s.keys && s.keys[s.log[i]] == s.keys[s.log[j]] ==> s.log[i] < s.log[j])
  }

  lemma LockedRelaysPublishOnceInOrder(mode: Mode, actions: seq<Action>)
    requires mode.locking && AllFaultless(actions)
    ensures OnceInOrder(Run(mode, INITIAL, actions))
  {
    RunKeepsOnce(mode, INITIAL, actions);
    var s := Run(mode, INITIAL, actions);
    forall i, j | 0 <= i < j < |s.log|
      ensures s.log[i] != s.log[j]
      ensures s.log[i] in s.keys && s.log[j] in s.keys && s.keys[s.log[i]] == s.keys[s.log[j]] ==> s.log[i] < s.log[j]
    {
      assert EntryOk(s, i) && EntryOk(s, j);
    }
  }

  /** Only these relays run. */
  predicate RunBy(actions: seq<Action>, relays: set<int>) {
    forall k :: 0 <= k < |actions| && actions[k].Begin? ==> actions[k].relay in relays
  }

  predicate AtMostOne(relays: set<int>) {
    forall r, q :: r in relays && q in relays ==> r == q
  }

  lemma NobodyElse(relays: set<int>, passes: map<int, Pass>, r: int)
    requires AtMostOne(relays) && passes.Keys <= relays && r in relays && r !in passes
    ensures passes == map[]
  {
    forall q ensures q !in passes {
      assert q in passes.Keys ==> q in relays;
    }
    assert passes.Keys == {};
  }

  /** One relay does with or without the lock the same. */
  lemma {:induction false} OneRelayNeedsNoLock(batchSize: nat, relays: set<int>, s: Cluster, actions: seq<Action>)
    requires AtMostOne(relays) && RunBy(actions, relays) && s.passes.Keys <= relays
    ensures Run(Mode(batchSize, false), s, actions) == Run(Mode(batchSize, true), s, actions)
    decreases |actions|
  {
    if actions != [] {
      var a := actions[0];
      if a.Begin? && a.relay !in s.passes {
        NobodyElse(relays, s.passes, a.relay);
      }
      var next := Exec(Mode(batchSize, false), s, a);
      assert next == Exec(Mode(batchSize, true), s, a);
      assert next.passes.Keys <= relays;
      OneRelayNeedsNoLock(batchSize, relays, next, actions[1..]);
    }
  }

  /** Fault-free runs publish every row once, one key's rows in order, exactly if the
      relays share the lock or there is at most one of them. */
  lemma OnceInOrderIff(mode: Mode, relays: set<int>)
    requires mode.batchSize > 0
    ensures (forall actions: seq<Action> :: AllFaultless(actions) && RunBy(actions, relays) ==>
              OnceInOrder(Run(mode, INITIAL, actions)))
            <==> mode.locking || AtMostOne(relays)
  {
    if mode.locking || AtMostOne(relays) {
      forall actions: seq<Action> | AllFaultless(actions) && RunBy(actions, relays)
        ensures OnceInOrder(Run(mode, INITIAL, actions))
      {
        if mode.locking {
          LockedRelaysPublishOnceInOrder(mode, actions);
        } else {
          OneRelayNeedsNoLock(mode.batchSize, relays, INITIAL, actions);
          LockedRelaysPublishOnceInOrder(Mode(mode.batchSize, true), actions);
        }
      }
    } else {
      var r, q :| r in relays && q in relays && r != q;
      TwoRelaysSendTwice(mode, relays, r, q);
      var s :| ReachesWithoutFault(mode, relays, s) && !OnceInOrder(s);
      var actions: seq<Action> :| AllFaultless(actions) && RunBy(actions, relays) && Run(mode, INITIAL, actions) == s;
    }
  }

  const ONE_ROW := Cluster([Row(1, 7, None)], map[1 := 7], [], {}, map[])

  function Fetched(one: Pass, two: Pass, r: int, q: int, log: seq<int>): Cluster {
    ONE_ROW.(passes := map[r := one, q := two], log := log)
  }

  lemma TwoRelaysFetch(mode: Mode, r: int, q: int)
    requires mode.batchSize > 0 && !mode.locking && r != q
    ensures var pass := Pass([1], 0, false);
      Exec(mode, Exec(mode, ONE_ROW, Begin(r)), Begin(q)) == Fetched(pass, pass, r, q, [])
  {
    hide Cleaned, Marked;
    var row := Row(1, 7, None);
    assert [row][..0] == [] && Pending([row]) == [1];
  }

  lemma TwoRelaysSend(mode: Mode, r: int, q: int)
    requires r != q
    ensures Exec(mode, Fetched(Pass([1], 0, false), Pass([1], 0, false), r, q, []), Publish(r, true))
         == Fetched(Pass([1], 1, false), Pass([1], 0, false), r, q, [1])
    ensures Exec(mode, Fetched(Pass([1], 1, false), Pass([1], 0, false), r, q, [1]), Publish(q, true)).log == [1, 1]
  {
    hide Cleaned, Marked, Batch, Insert;
  }

  /** Without the lock two relays fetch the same row and both send it. */
  lemma TwoRelaysSendTwice(mode: Mode, relays: set<int>, r: int, q: int)
    requires mode.batchSize > 0 && !mode.locking && r in relays && q in relays && r != q
    ensures exists s :: ReachesWithoutFault(mode, relays, s) && !OnceInOrder(s)
  {
    OneRowBecomesVisible(mode);
    TwoRelaysFetch(mode, r, q);
    TwoRelaysSend(mode, r, q);
    InitiallyReached(mode, relays);
    hide Exec, ReachesWithoutFault, OnceInOrder;
    OneMore(mode, relays, INITIAL, Visible(1, 7));
    OneMore(mode, relays, ONE_ROW, Begin(r));
    OneMore(mode, relays, Exec(mode, ONE_ROW, Begin(r)), Begin(q));
    var fetched, sent := Pass([1], 0, false), Pass([1], 1, false);
    OneMore(mode, relays, Fetched(fetched, fetched, r, q, []), Publish(r, true));
    OneMore(mode, relays, Fetched(sent, fetched, r, q, [1]), Publish(q, true));
    SentTwice(Exec(mode, Fetched(sent, fetched, r, q, [1]), Publish(q, true)));
  }

  lemma SentTwice(s: Cluster)
    requires s.log == [1, 1]
    ensures !OnceInOrder(s)
  {
    assert s.log[0] == s.log[1];
  }

  ghost predicate ReachesWithoutFault(mode: Mode, relays: set<int>, s: Cluster) {
    exists actions: seq<Action> :: AllFaultless(actions) && RunBy(actions, relays) && Run(mode, INITIAL, actions) == s
  }

  predicate AllFaultless(actions: seq<Action>) {
    forall k :: 0 <= k < |actions| ==> Faultless(actions[k])
  }

  lemma InitiallyReached(mode: Mode, relays: set<int>)
    ensures ReachesWithoutFault(mode, relays, INITIAL)
  {
    assert AllFaultless([]) && RunBy([], relays) && Run(mode, INITIAL, []) == INITIAL;
  }

  lemma OneMore(mode: Mode, relays: set<int>, s: Cluster, a: Action)
    requires ReachesWithoutFault(mode, relays, s) && Faultless(a) && (a.Begin? ==> a.relay in relays)
    ensures ReachesWithoutFault(mode, relays, Exec(mode, s, a))
  {
    hide Exec;
    var actions :| AllFaultless(actions) && RunBy(actions, relays) && Run(mode, INITIAL, actions) == s;
    RunThen(mode, INITIAL, actions, a);
    assert AllFaultless(actions + [a]) && RunBy(actions + [a], relays);
  }

  lemma {:induction false} RunThen(mode: Mode, s: Cluster, actions: seq<Action>, a: Action)
    ensures Run(mode, s, actions + [a]) == Exec(mode, Run(mode, s, actions), a)
    decreases |actions|
  {
    if actions == [] {
      assert [a][1..] == [];
      assert Run(mode, s, [a]) == Run(mode, Exec(mode, s, a), []);
      assert actions + [a] == [a];
    } else {
      RunThen(mode, Exec(mode, s, actions[0]), actions[1..], a);
      assert (actions + [a])[1..] == actions[1..] + [a];
    }
  }

  const TWO_ROWS := Cluster([Row(1, 7, None), Row(2, 7, None)], map[1 := 7, 2 := 7], [], {}, map[])
  const BOTH_FETCHED := TWO_ROWS.(passes := map[0 := Pass([1, 2], 0, false), 1 := Pass([1, 2], 0, false)])
  const FIRST_IS_DONE := Cluster(TWO_ROWS.rows, TWO_ROWS.keys, [1, 2], {},
                                 map[0 := Pass([1, 2], 2, false), 1 := Pass([1, 2], 0, false)])

  lemma OneRowBecomesVisible(mode: Mode)
    ensures Exec(mode, INITIAL, Visible(1, 7)) == ONE_ROW
  {
    hide Cleaned, Marked, Batch, Pending;
    assert Exec(mode, INITIAL, Visible(1, 7)).rows == ONE_ROW.rows;
  }

  lemma TwoRowsBecomeVisible(mode: Mode)
    ensures Exec(mode, ONE_ROW, Visible(2, 7)) == TWO_ROWS
  {
    hide Cleaned, Marked, Batch, Pending;
    var one, two := Row(1, 7, None), Row(2, 7, None);
    assert Insert([one], two) == [one, two];
    assert ONE_ROW.keys[2 := 7] == TWO_ROWS.keys;
  }

  lemma BothRelaysFetchBoth(mode: Mode)
    requires mode == Mode(100, false)
    ensures Exec(mode, Exec(mode, TWO_ROWS, Begin(0)), Begin(1)) == BOTH_FETCHED
  {
    var one, two := Row(1, 7, None), Row(2, 7, None);
    assert [one, two][..1] == [one] && [one][..0] == [];
    assert Pending([one]) == [1] && Pending([one, two]) == [1, 2];
  }

  lemma FirstRelaySendsBoth(mode: Mode)
    ensures Exec(mode, Exec(mode, BOTH_FETCHED, Publish(0, true)), Publish(0, true)) == FIRST_IS_DONE
  {
    var s := Exec(mode, BOTH_FETCHED, Publish(0, true));
    assert s.log == [1] && s.passes[0] == Pass([1, 2], 1, false);
  }

  lemma TheRaceIsReached(mode: Mode)
    requires mode == Mode(100, false)
    ensures ReachesWithoutFault(mode, {0, 1}, FIRST_IS_DONE)
  {
    OneRowBecomesVisible(mode);
    TwoRowsBecomeVisible(mode);
    BothRelaysFetchBoth(mode);
    FirstRelaySendsBoth(mode);
    InitiallyReached(mode, {0, 1});
    hide Exec, ReachesWithoutFault;
    OneMore(mode, {0, 1}, INITIAL, Visible(1, 7));
    OneMore(mode, {0, 1}, ONE_ROW, Visible(2, 7));
    OneMore(mode, {0, 1}, TWO_ROWS, Begin(0));
    OneMore(mode, {0, 1}, Exec(mode, TWO_ROWS, Begin(0)), Begin(1));
    OneMore(mode, {0, 1}, BOTH_FETCHED, Publish(0, true));
    OneMore(mode, {0, 1}, Exec(mode, BOTH_FETCHED, Publish(0, true)), Publish(0, true));
  }

  /** Order too can break after the first sight of a row: two relays
      fetch the same two rows of a key, and the slower one sends the older row
      again after the newer one. */
  lemma UnlockedRelaysRepeatOutOfOrder()
    ensures exists s :: ReachesWithoutFault(Mode(100, false), {0, 1}, s)
                   && s.log == [1, 2, 1] && s.keys == map[1 := 7, 2 := 7]
  {
    var mode := Mode(100, false);
    TheRaceIsReached(mode);
    OneMore(mode, {0, 1}, FIRST_IS_DONE, Publish(1, true));
    assert Exec(mode, FIRST_IS_DONE, Publish(1, true)).log == [1, 2, 1];
  }
}
