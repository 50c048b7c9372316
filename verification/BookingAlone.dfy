/** A call that runs with nobody beside it does what the service's methods do. */
module BookingAlone {
  import opened Prelude
  import opened SchedulerMoney
  import opened AppointmentTables
  import opened BookingRuns
  import Service = BookingService

  /** Call t takes n more statements and nothing else moves. */
  function Drive(site: Site, s: System, t: int, n: nat): System
    decreases n
  {
    if n == 0 then s else Drive(site, Exec(site, s, Advance(t)), t, n - 1)
  }

  predicate Quiet(s: System) {
    forall u :: u in s.txs ==> Finished(s.txs[u])
  }

  predicate Ends(s: System, s': System, t: int, tx: Result<Tables, Service.Error>, done: Tx) {
    && t in s'.txs
    && (if tx.Ok? then s'.txs[t] == done && s'.tables == tx.value else s'.txs[t] == Failed && s'.tables == s.tables)
  }

  lemma BookAlone(site: Site, s: System, t: int, b: Booking)
    requires Quiet(s) && t !in s.txs && b.start < b.end
    ensures Ends(s, Drive(site, Exec(site, s, Start(t, Book(b))), t, 5), t,
                 Service.BookTx(site.bays, s.tables, s.nextId, b), BookDone(s.nextId))
  {
    hide VehicleBusy, FreeBay, CommitBooking, BayFree;
    var s1 := Exec(site, s, Start(t, Book(b)));
    var s2 := Exec(site, s1, Advance(t));
    assert s2 == Now(s1, t, BookLocked(b));
    var s3 := Exec(site, s2, Advance(t));
    var s4 := Exec(site, s3, Advance(t));
    var s5 := Exec(site, s4, Advance(t));
    var s6 := Exec(site, s5, Advance(t));
    assert s6 == Drive(site, s5, t, 1) == Drive(site, s4, t, 2) == Drive(site, s3, t, 3) == Drive(site, s2, t, 4);
  }

  lemma CancelAlone(site: Site, s: System, t: int, id: int, now: int, customer: int)
    requires Quiet(s) && t !in s.txs
    ensures Ends(s, Drive(site, Exec(site, s, Start(t, Cancel(id, customer, now))), t, 2), t,
                 Service.CancelTx(s.tables, id, now, Service.Caller(Some(customer), None)), CancelDone(id))
  {
    var s1 := Exec(site, s, Start(t, Cancel(id, customer, now)));
    var s2 := Exec(site, s1, Advance(t));
    var s3 := Exec(site, s2, Advance(t));
    assert s3 == Drive(site, s2, t, 1);
  }

  lemma CompleteAlone(site: Site, s: System, t: int, id: int, currency: string)
    requires Quiet(s) && t !in s.txs
    ensures Ends(s, Drive(site, Exec(site, s, Start(t, Complete(id, currency))), t, 2), t,
                 Service.CompleteTx(s.tables, id, currency), CompleteDone(id))
  {
    hide FeesConvert, EveryFeeConverts, CommitComplete, Live, Service.LinesOf;
    hide VehicleBusy, FreeBay, BayFree, CommitBooking, CommitCancel;
    LinesOfConvert(s.tables, s.tables.lines, id, currency);
    assert s.tables.(lines := s.tables.lines) == s.tables;
    var s1 := Exec(site, s, Start(t, Complete(id, currency)));
    var s2 := Exec(site, s1, Advance(t));
    var s3 := Exec(site, s2, Advance(t));
    assert s3 == Drive(site, s2, t, 1);
  }

  lemma {:induction false} LinesOfConvert(t: Tables, lines: seq<LineRow>, id: int, currency: string)
    ensures EveryFeeConverts(Service.LinesOf(lines, id), currency)
       <==> FeesConvert(t.(lines := lines), id, currency)
  {
    if lines != [] {
      var n := |lines| - 1;
      LinesOfConvert(t, lines[..n], id, currency);
      var before, all := Service.LinesOf(lines[..n], id), Service.LinesOf(lines, id);
      assert all == before || (all[|before|].fee == lines[n].fee
                               && forall i :: 0 <= i < |before| ==> all[i] == before[i]);
    }
  }
}
