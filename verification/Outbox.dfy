/** The outbox table, and one relay's pass over it. The Go services' relay and
    billing's differ in the lock around a pass, not in the pass. */
module Outbox {
  import opened Prelude

  /** An unpublished row has no publishedAt. */
  datatype Row = Row(id: int, key: int, publishedAt: Option<int>)

  /** What sending one message comes to. A failed send may have reached the broker. */
  datatype Answer = Acked | Lost | Delivered

  /** The table in order of id, which is its primary key. */
  predicate Sorted(rows: seq<Row>) {
    forall i, j :: 0 <= i < j < |rows| ==> rows[i].id < rows[j].id
  }

  predicate Ascending(ids: seq<int>) {
    forall i, j :: 0 <= i < j < |ids| ==> ids[i] < ids[j]
  }

  /** The unpublished ids, in order. */
  function Pending(rows: seq<Row>): seq<int> {
    if rows == [] then []
    else
      var init := Pending(rows[..|rows| - 1]);
      if rows[|rows| - 1].publishedAt.None? then init + [rows[|rows| - 1].id] else init
  }

  /** The first ids of a batch. */
  function Batch(rows: seq<Row>, limit: nat): seq<int> {
    var pending := Pending(rows);
    if |pending| <= limit then pending else pending[..limit]
  }

  /** UPDATE outbox_message SET published_at = now WHERE id IN ids. */
  function Marked(rows: seq<Row>, ids: seq<int>, now: int): seq<Row> {
    seq(|rows|, i requires 0 <= i < |rows| =>
      if rows[i].id in ids then rows[i].(publishedAt := Some(now)) else rows[i])
  }

  /** DELETE FROM outbox_message WHERE published_at < cutoff. */
  function Cleaned(rows: seq<Row>, cutoff: int): seq<Row> {
    if rows == [] then []
    else
      var init := Cleaned(rows[..|rows| - 1], cutoff);
      var last := rows[|rows| - 1];
      if last.publishedAt.Some? && last.publishedAt.value < cutoff then init else init + [last]
  }

  /** How many of the first n sends are acknowledged before one fails. */
  function Acks(answers: nat -> Answer, n: nat): (r: nat)
    ensures r <= n && forall i :: 0 <= i < r ==> answers(i) == Acked
    ensures r < n ==> answers(r) != Acked
  {
    if n == 0 then 0
    else
      var before := Acks(answers, n - 1);
      if before == n - 1 && answers(n - 1) == Acked then n else before
  }

  /** What a pass over this batch adds to the broker's log. */
  function Sent(batch: seq<int>, answers: nat -> Answer): seq<int> {
    var n := Acks(answers, |batch|);
    batch[..n] + (if n < |batch| && answers(n) == Delivered then [batch[n]] else [])
  }

  class Table {
    var rows: seq<Row>
    var nextId: int

    constructor ()
      ensures rows == [] && nextId == 1 && Valid()
    {
      rows, nextId := [], 1;
    }

    predicate Valid()
      reads this
    {
      Sorted(rows) && forall i :: 0 <= i < |rows| ==> rows[i].id < nextId
    }

    method Create(key: int)
      requires Valid()
      modifies this
      ensures Valid()
      ensures rows == old(rows) + [Row(old(nextId), key, None)]
    {
      rows := rows + [Row(nextId, key, None)];
      nextId := nextId + 1;
    }

    /** The ids of the first unpublished rows, oldest first. */
    method FetchUnpublished(limit: nat) returns (ids: seq<int>)
      ensures ids == Batch(rows, limit)
    {
      ids := [];
      for i := 0 to |rows|
        invariant ids == Batch(rows[..i], limit)
      {
        assert rows[..i + 1][..i] == rows[..i];
        if |ids| < limit && rows[i].publishedAt.None? {
          ids := ids + [rows[i].id];
        }
      }
      assert rows[..|rows|] == rows;
    }

    method MarkPublished(ids: seq<int>, now: int)
      modifies this`rows
      ensures rows == Marked(old(rows), ids, now)
    {
      rows := Marked(rows, ids, now);
    }

    method Cleanup(cutoff: int)
      modifies this`rows
      ensures rows == Cleaned(old(rows), cutoff)
    {
      var kept := [];
      for i := 0 to |rows|
        invariant kept == Cleaned(rows[..i], cutoff)
      {
        assert rows[..i + 1][..i] == rows[..i];
        if !(rows[i].publishedAt.Some? && rows[i].publishedAt.value < cutoff) {
          kept := kept + [rows[i]];
        }
      }
      assert rows[..|rows|] == rows;
      rows := kept;
    }
  }

  class Broker {
    var log: seq<int>

    constructor ()
      ensures log == []
    {
      log := [];
    }

    method Publish(id: int, answer: Answer) returns (ok: bool)
      modifies this
      ensures ok <==> answer == Acked
      ensures log == if answer == Lost then old(log) else old(log) + [id]
    {
      ok := answer == Acked;
      if answer != Lost {
        log := log + [id];
      }
    }
  }

  /** One pass: publish in order of id, stop at the first failure, mark what was
      acknowledged. If marking fails the rows stay unpublished. */
  method RelayOnce(table: Table, broker: Broker, batchSize: nat, answers: nat -> Answer, markFails: bool, now: int)
    returns (count: nat)
    modifies table`rows, broker
    ensures var batch := Batch(old(table.rows), batchSize);
      && count == Acks(answers, |batch|)
      && broker.log == old(broker.log) + Sent(batch, answers)
      && table.rows == if markFails then old(table.rows) else Marked(old(table.rows), batch[..count], now)
  {
    var messages := table.FetchUnpublished(batchSize);
    var published: seq<int> := [];
    var i := 0;
    while i < |messages|
      invariant 0 <= i <= |messages|
      invariant published == messages[..i] && Acks(answers, i) == i
      invariant broker.log == old(broker.log) + messages[..i] && table.rows == old(table.rows)
    {
      var ok := broker.Publish(messages[i], answers(i));
      if !ok {
        AcksStopAt(answers, i, |messages|);
        break;
      }
      published := published + [messages[i]];
      i := i + 1;
    }
    count := |published|;
    if |published| == 0 {
      assert messages[..0] == [];
      assert Marked(table.rows, messages[..0], now) == table.rows;
      return;
    }
    if !markFails {
      table.MarkPublished(published, now);
    }
  }

  lemma {:induction false} AcksStopAt(answers: nat -> Answer, i: nat, n: nat)
    requires i < n && Acks(answers, i) == i && answers(i) != Acked
    ensures Acks(answers, n) == i
  {
    if i + 1 < n {
      AcksStopAt(answers, i, n - 1);
    }
  }

  // --- Nothing is lost ----------------------------------------------------------

  ghost predicate IsPending(rows: seq<Row>, id: int) {
    exists i :: 0 <= i < |rows| && rows[i].id == id && rows[i].publishedAt.None?
  }

  lemma {:induction false} PendingAre(rows: seq<Row>)
    requires Sorted(rows)
    ensures Ascending(Pending(rows))
    ensures forall id :: id in Pending(rows) <==> IsPending(rows, id)
    ensures forall id :: id in Pending(rows) ==> rows != [] && id <= rows[|rows| - 1].id
  {
    if rows != [] {
      var init := rows[..|rows| - 1];
      PendingAre(init);
      forall k | 0 <= k < |Pending(init)| ensures Pending(init)[k] < rows[|init|].id {
        assert Pending(init)[k] in Pending(init);
      }
      forall id
        ensures IsPending(rows, id)
           <==> IsPending(init, id) || (id == rows[|init|].id && rows[|init|].publishedAt.None?)
      {
        if IsPending(init, id) {
          var i :| 0 <= i < |init| && init[i].id == id && init[i].publishedAt.None?;
          assert rows[i].id == id;
        }
        if IsPending(rows, id) {
          var i :| 0 <= i < |rows| && rows[i].id == id && rows[i].publishedAt.None?;
          assert i < |init| ==> init[i].id == id;
        }
      }
    }
  }

  /** Marking takes exactly the marked ids off the front of the queue. */
  lemma MarkedPrefixLeavesTheRest(rows: seq<Row>, n: nat, now: int)
    requires Sorted(rows) && n <= |Pending(rows)|
    ensures Pending(Marked(rows, Pending(rows)[..n], now)) == Pending(rows)[n..]
  {
    PendingAre(rows);
    MarkedPending(rows, Pending(rows)[..n], now);
    var pending := Pending(rows);
    DropPrefix(pending, n);
  }

  function Without(ids: seq<int>, gone: seq<int>): seq<int> {
    if ids == [] then []
    else
      var init := Without(ids[..|ids| - 1], gone);
      if ids[|ids| - 1] in gone then init else init + [ids[|ids| - 1]]
  }

  lemma {:induction false} MarkedPending(rows: seq<Row>, ids: seq<int>, now: int)
    ensures Pending(Marked(rows, ids, now)) == Without(Pending(rows), ids)
  {
    if rows != [] {
      var init := rows[..|rows| - 1];
      MarkedPending(init, ids, now);
      assert Marked(rows, ids, now)[..|init|] == Marked(init, ids, now);
    }
  }

  lemma {:induction false} DropPrefix(ids: seq<int>, n: nat)
    requires Ascending(ids) && n <= |ids|
    ensures Without(ids, ids[..n]) == ids[n..]
  {
    WithoutPrefixUpTo(ids, n, |ids|);
    assert ids[..|ids|] == ids;
  }

  lemma {:induction false} WithoutPrefixUpTo(ids: seq<int>, n: nat, m: nat)
    requires Ascending(ids) && n <= |ids| && m <= |ids|
    ensures Without(ids[..m], ids[..n]) == if m <= n then [] else ids[n..m]
  {
    if m > 0 {
      WithoutPrefixUpTo(ids, n, m - 1);
      assert ids[..m][..m - 1] == ids[..m - 1];
      if m <= n {
        assert ids[m - 1] == ids[..n][m - 1] && ids[m - 1] in ids[..n];
      } else {
        assert ids[m - 1] !in ids[..n];
      }
    }
  }

  /** A row is deleted exactly if it was published before the cutoff. */
  lemma {:induction false} CleanupDeletesExactly(rows: seq<Row>, cutoff: int)
    ensures forall row :: row in Cleaned(rows, cutoff) <==>
      row in rows && (row.publishedAt.None? || row.publishedAt.value >= cutoff)
    ensures Sorted(rows) ==> Sorted(Cleaned(rows, cutoff))
  {
    if rows != [] {
      var init := rows[..|rows| - 1];
      CleanupDeletesExactly(init, cutoff);
      assert forall row :: row in rows <==> row in init || row == rows[|rows| - 1];
      if Sorted(rows) {
        forall k | 0 <= k < |Cleaned(init, cutoff)| ensures Cleaned(init, cutoff)[k].id < rows[|init|].id {
          assert Cleaned(init, cutoff)[k] in init;
        }
      }
    }
  }

  /** Marking stamps the rows with these ids and no other. */
  lemma MarkStampsExactly(rows: seq<Row>, ids: seq<int>, now: int)
    ensures |Marked(rows, ids, now)| == |rows|
    ensures forall i :: 0 <= i < |rows| ==>
      var row := Marked(rows, ids, now)[i];
      && row.id == rows[i].id && row.key == rows[i].key
      && row.publishedAt == if rows[i].id in ids then Some(now) else rows[i].publishedAt
  {
  }

  /** Retention only ever deletes published rows. */
  lemma {:induction false} CleanupKeepsPending(rows: seq<Row>, cutoff: int)
    ensures Pending(Cleaned(rows, cutoff)) == Pending(rows)
  {
    if rows != [] {
      CleanupKeepsPending(rows[..|rows| - 1], cutoff);
    }
  }

  /** The table after as many fault-free passes as it takes, and how many that is. */
  function PassesToDrain(rows: seq<Row>, batchSize: nat, now: int): nat
    requires Sorted(rows) && batchSize > 0
    decreases |Pending(rows)|
  {
    if Pending(rows) == [] then 0
    else
      var batch := Batch(rows, batchSize);
      assert batch == Pending(rows)[..|batch|];
      MarkedPrefixLeavesTheRest(rows, |batch|, now);
      1 + PassesToDrain(Marked(rows, batch, now), batchSize, now)
  }

  /** n pending rows are drained in exactly n / batchSize passes, rounded up. */
  lemma {:induction false} DrainsInCeilingPasses(rows: seq<Row>, batchSize: nat, now: int)
    requires Sorted(rows) && batchSize > 0
    ensures var n, passes := |Pending(rows)|, PassesToDrain(rows, batchSize, now);
      (passes - 1) * batchSize < n <= passes * batchSize || n == passes == 0
    decreases |Pending(rows)|
  {
    if Pending(rows) != [] {
      var batch := Batch(rows, batchSize);
      assert batch == Pending(rows)[..|batch|];
      MarkedPrefixLeavesTheRest(rows, |batch|, now);
      DrainsInCeilingPasses(Marked(rows, batch, now), batchSize, now);
      var rest := PassesToDrain(Marked(rows, batch, now), batchSize, now);
      assert PassesToDrain(rows, batchSize, now) == 1 + rest;
      assert (1 + rest) * batchSize == batchSize + rest * batchSize;
      assert rest * batchSize == batchSize + (rest - 1) * batchSize;
    }
  }
}
