/** vehicle-service's list of vehicles, upwards by id, and billing's list of a customer's bills, downwards. */
module Listings {
  import opened Prelude
  import opened Keyset
  import Vehicles
  import Balances

  type Vehicle = Vehicles.Vehicle
  type Bill = Balances.Bill

  const DEFAULT_LIMIT: nat := 20
  const MAX_LIMIT: nat := 100

  /** Empty texts and no status filter nothing. */
  datatype Filter = Filter(vin: string, plate: string, status: Option<Vehicles.Status>) {
    predicate Matches(v: Vehicle) {
      (vin == "" || v.vin == vin) && (plate == "" || v.plate == plate) && (status.None? || v.status == status.value)
    }
  }

  /** Cursor 0 is no cursor: ids are positive. */
  datatype VehiclePage = VehiclePage(vehicles: seq<Vehicle>, nextCursor: int, hasMore: bool)

  /** The table in the order of its ids. */
  ghost predicate SortedById(rows: seq<Vehicle>) {
    (forall i :: 0 <= i < |rows| ==> rows[i].id > 0) && (forall i, j :: 0 <= i < j < |rows| ==> rows[i].id < rows[j].id)
  }

  /** What the query selects, before its limit. */
  function Select(rows: seq<Vehicle>, cursor: int, filter: Filter): seq<Vehicle> {
    if rows == [] then []
    else
      var rest := Select(rows[1..], cursor, filter);
      if (cursor <= 0 || rows[0].id > cursor) && filter.Matches(rows[0]) then [rows[0]] + rest else rest
  }

  function Ids(rows: seq<Vehicle>): seq<int> {
    seq(|rows|, i requires 0 <= i < |rows| => rows[i].id)
  }

  function CursorOf(cursor: int): Option<int> {
    if cursor <= 0 then None else Some(cursor)
  }

  /** The row is after the cursor, and has what the filter asks for. */
  predicate IsWanted(v: Vehicle, cursor: int, filter: Filter) {
    && (cursor > 0 ==> v.id > cursor)
    && (filter.vin != "" ==> v.vin == filter.vin)
    && (filter.plate != "" ==> v.plate == filter.plate)
    && (filter.status.Some? ==> v.status == filter.status.value)
  }

  ghost predicate Upwards(rows: seq<Vehicle>) {
    forall i, j :: 0 <= i < j < |rows| ==> rows[i].id < rows[j].id
  }

  /** The page holds wanted rows in the order of their ids, at most limit of them. It leaves out only later ones: it is
      full then, says that there are more, and names its last id as the cursor to go on from. */
  ghost predicate HoldsWanted(rows: seq<Vehicle>, cursor: int, filter: Filter, limit: nat, page: VehiclePage) {
    var got := page.vehicles;
    && |got| <= limit && Upwards(got)
    && (forall v :: v in got ==> v in rows && IsWanted(v, cursor, filter))
    && (forall v :: v in rows && IsWanted(v, cursor, filter) ==> v in got || (page.hasMore && v.id > page.nextCursor))
    && (page.hasMore <==> exists v :: v in rows && IsWanted(v, cursor, filter) && v !in got)
    && (if page.hasMore then 0 < |got| == limit && page.nextCursor == got[limit - 1].id else page.nextCursor == 0)
  }

  /** The repository's page: one row past the limit tells whether there are more. */
  method List(rows: seq<Vehicle>, cursor: int, filter: Filter, limit: nat) returns (page: VehiclePage)
    requires SortedById(rows) && limit > 0
    ensures Ids(page.vehicles) == PageOf(Ids(Select(rows, 0, filter)), CursorOf(cursor), limit).keys
    ensures forall i :: 0 <= i < |page.vehicles| ==> page.vehicles[i] in rows && filter.Matches(page.vehicles[i])
    ensures CursorOf(page.nextCursor) == PageOf(Ids(Select(rows, 0, filter)), CursorOf(cursor), limit).next
    ensures page.hasMore <==> page.nextCursor != 0
    ensures HoldsWanted(rows, cursor, filter, limit, page)
  {
    hide Select, After, SortedById, Ids, Filter.Matches, HoldsWanted, PageOf;
    var selected := Select(rows, cursor, filter);
    var found := if |selected| > limit + 1 then selected[..limit + 1] else selected;
    var hasMore := |found| > limit;
    if hasMore {
      found := found[..limit];
    }
    var vehicles := [];
    for i := 0 to |found|
      invariant vehicles == found[..i]
    {
      vehicles := vehicles + [found[i]];
    }
    assert vehicles == if hasMore then selected[..limit] else selected;
    var nextCursor := 0;
    if hasMore {
      nextCursor := vehicles[|vehicles| - 1].id;
    }
    page := VehiclePage(vehicles, nextCursor, hasMore);
    CutIsPageOf(rows, cursor, filter, limit, page);
    CutHoldsWanted(rows, cursor, filter, limit, page);
  }

  /** The page is what of the selected rows the limit leaves, and a cursor if it leaves out any. */
  ghost predicate IsCut(rows: seq<Vehicle>, cursor: int, filter: Filter, limit: nat, page: VehiclePage)
    requires limit > 0
  {
    var selected := Select(rows, cursor, filter);
    && page.hasMore == (|selected| > limit)
    && page.vehicles == (if page.hasMore then selected[..limit] else selected)
    && page.nextCursor == if page.hasMore then selected[limit - 1].id else 0
  }

  lemma CutIsPageOf(rows: seq<Vehicle>, cursor: int, filter: Filter, limit: nat, page: VehiclePage)
    requires SortedById(rows) && limit > 0 && IsCut(rows, cursor, filter, limit, page)
    ensures Ids(page.vehicles) == PageOf(Ids(Select(rows, 0, filter)), CursorOf(cursor), limit).keys
    ensures forall i :: 0 <= i < |page.vehicles| ==> page.vehicles[i] in rows && filter.Matches(page.vehicles[i])
    ensures CursorOf(page.nextCursor) == PageOf(Ids(Select(rows, 0, filter)), CursorOf(cursor), limit).next
    ensures page.hasMore <==> page.nextCursor != 0
  {
    var selected := Select(rows, cursor, filter);
    SelectIsAfter(rows, cursor, filter);
    SelectArePart(rows, cursor, filter);
    hide Select, After, SortedById, Ids, Filter.Matches;
    assert page.vehicles == selected[..|page.vehicles|];
    PrefixIds(selected, |page.vehicles|);
  }

  lemma CutHoldsWanted(rows: seq<Vehicle>, cursor: int, filter: Filter, limit: nat, page: VehiclePage)
    requires SortedById(rows) && limit > 0 && IsCut(rows, cursor, filter, limit, page)
    ensures HoldsWanted(rows, cursor, filter, limit, page)
  {
    SelectedAre(rows, cursor, filter);
    hide Select, SortedById, IsWanted;
    CutOffLater(Select(rows, cursor, filter), limit, page.vehicles);
  }

  lemma SelectedAre(rows: seq<Vehicle>, cursor: int, filter: Filter)
    requires SortedById(rows)
    ensures forall v :: v in Select(rows, cursor, filter) <==> v in rows && IsWanted(v, cursor, filter)
    ensures Upwards(Select(rows, cursor, filter))
  {
    SelectAre(rows, cursor, filter);
    SelectIncreases(rows, cursor, filter);
    var selected := Select(rows, cursor, filter);
    hide Select, SortedById;
    assert forall i :: 0 <= i < |selected| ==> Ids(selected)[i] == selected[i].id;
  }

  /** The first rows of an ascending list leave out the later ones. */
  lemma CutOffLater(selected: seq<Vehicle>, limit: nat, got: seq<Vehicle>)
    requires limit > 0 && got == if |selected| > limit then selected[..limit] else selected
    requires Upwards(selected)
    ensures Upwards(got) && forall v :: v in got ==> v in selected
    ensures forall v :: v in selected ==> v in got || (|selected| > limit && v.id > selected[limit - 1].id)
    ensures |selected| > limit <==> exists v :: v in selected && v !in got
  {
    if |selected| > limit {
      assert selected[limit] in selected && selected[limit] !in got;
    }
    forall v | v in selected ensures v in got || (|selected| > limit && v.id > selected[limit - 1].id) {
      var i :| 0 <= i < |selected| && selected[i] == v;
      assert i < |got| ==> got[i] == v;
    }
  }

  lemma PrefixIds(rows: seq<Vehicle>, n: nat)
    requires n <= |rows|
    ensures Ids(rows[..n]) == Ids(rows)[..n] && |Ids(rows)| == |rows|
    ensures forall i :: 0 <= i < |rows| ==> Ids(rows)[i] == rows[i].id
  {
  }

  lemma SelectArePart(rows: seq<Vehicle>, cursor: int, filter: Filter)
    requires SortedById(rows)
    ensures var selected := Select(rows, cursor, filter);
      forall i :: 0 <= i < |selected| ==> selected[i] in rows && filter.Matches(selected[i]) && selected[i].id > 0
  {
    SelectAre(rows, cursor, filter);
    hide Select;
  }

  lemma {:induction false} SelectAre(rows: seq<Vehicle>, cursor: int, filter: Filter)
    ensures forall v :: v in Select(rows, cursor, filter)
                   <==> v in rows && filter.Matches(v) && (cursor <= 0 || v.id > cursor)
    ensures forall i :: 0 <= i < |Select(rows, cursor, filter)| ==>
      Select(rows, cursor, filter)[i] in rows && filter.Matches(Select(rows, cursor, filter)[i])
  {
    if rows != [] {
      SelectAre(rows[1..], cursor, filter);
      assert forall v :: v in rows <==> v == rows[0] || v in rows[1..];
    }
  }

  lemma {:induction false} SelectIncreases(rows: seq<Vehicle>, cursor: int, filter: Filter)
    requires SortedById(rows)
    ensures Increasing(Ids(Select(rows, cursor, filter)))
    ensures forall i :: 0 <= i < |Select(rows, cursor, filter)| ==>
      rows != [] && Select(rows, cursor, filter)[i].id >= rows[0].id
  {
    if rows != [] {
      SelectIncreases(rows[1..], cursor, filter);
      var rest := Select(rows[1..], cursor, filter);
      Joined([rows[0].id], Ids(rest));
      assert Ids([rows[0]] + rest) == [rows[0].id] + Ids(rest);
    }
  }

  lemma {:induction false} SelectIsAfter(rows: seq<Vehicle>, cursor: int, filter: Filter)
    requires SortedById(rows)
    ensures Ids(Select(rows, cursor, filter)) == After(Ids(Select(rows, 0, filter)), CursorOf(cursor))
  {
    if rows != [] {
      SelectIsAfter(rows[1..], cursor, filter);
      if filter.Matches(rows[0]) {
        var rest := Select(rows[1..], 0, filter);
        assert Select(rows, 0, filter) == [rows[0]] + rest;
        IdsFirst(rows[0], rest);
        if cursor <= 0 || rows[0].id > cursor {
          SelectIncreases(rows[1..], 0, filter);
          AfterAll(Ids(rest), CursorOf(cursor));
          assert Select(rows, cursor, filter) == [rows[0]] + Select(rows[1..], cursor, filter);
          IdsFirst(rows[0], Select(rows[1..], cursor, filter));
        }
      }
    }
  }

  lemma IdsFirst(v: Vehicle, rest: seq<Vehicle>)
    ensures Ids([v] + rest) == [v.id] + Ids(rest)
    ensures ([v.id] + Ids(rest))[1..] == Ids(rest)
  {
  }

  lemma AfterAll(keys: seq<int>, cursor: Option<int>)
    requires keys != [] ==> Past(keys[0], cursor)
    ensures After(keys, cursor) == keys
  {
  }

  datatype ListError = InvalidInput

  /** The service clamps the cursor and the limit. A VIN or a plate comes as its
      normalization answered, which may be a refusal. */
  method ListVehicles(rows: seq<Vehicle>, cursor: int, limit: int, vin: Result<string, ListError>,
                      plate: Result<string, ListError>, status: Option<Vehicles.StatusInput>)
    returns (r: Result<VehiclePage, ListError>)
    requires SortedById(rows)
    ensures r.Err? <==> vin.Err? || plate.Err? || (status.Some? && status.value.Unknown?)
    ensures r.Ok? ==>
      var filter := Filter(vin.value, plate.value, if status.None? then None else Some(status.value.status));
      var size: nat := if limit <= 0 then DEFAULT_LIMIT else if limit > MAX_LIMIT then MAX_LIMIT else limit;
      var page := PageOf(Ids(Select(rows, 0, filter)), CursorOf(cursor), size);
      Ids(r.value.vehicles) == page.keys && CursorOf(r.value.nextCursor) == page.next
      && (r.value.hasMore <==> r.value.nextCursor != 0) && |r.value.vehicles| <= MAX_LIMIT
      && HoldsWanted(rows, cursor, filter, size, r.value)
  {
    var from, size := cursor, limit;
    if from < 0 {
      from := 0;
    }
    if size <= 0 {
      size := DEFAULT_LIMIT;
    } else if size > MAX_LIMIT {
      size := MAX_LIMIT;
    }
    if vin.Err? {
      return Err(vin.error);
    }
    if plate.Err? {
      return Err(plate.error);
    }
    if status.Some? && status.value.Unknown? {
      return Err(InvalidInput);
    }
    var filter := Filter(vin.value, plate.value, if status.None? then None else Some(status.value.status));
    var page := List(rows, from, filter, size);
    assert |Ids(page.vehicles)| <= size;
    FromZero(rows, cursor, filter, size, page);
    return Ok(page);
  }

  /** A negative cursor is none, as zero is. */
  lemma FromZero(rows: seq<Vehicle>, cursor: int, filter: Filter, limit: nat, page: VehiclePage)
    requires HoldsWanted(rows, if cursor < 0 then 0 else cursor, filter, limit, page)
    ensures HoldsWanted(rows, cursor, filter, limit, page)
  {
    assert forall v :: IsWanted(v, if cursor < 0 then 0 else cursor, filter) == IsWanted(v, cursor, filter);
    hide IsWanted;
  }

  // --- Bills, newest first --------------------------------------------------------------

  datatype BillPage = BillPage(bills: seq<Bill>, next: Option<int>)

  ghost predicate BillsSorted(bills: seq<Bill>) {
    forall i, j :: 0 <= i < j < |bills| ==> bills[i].id < bills[j].id
  }

  predicate Selected(b: Bill, customer: int, before: Option<int>) {
    b.customer == customer && (before.None? || b.id < before.value)
  }

  /** The customer's bills below a cursor, by descending id; the table itself ascends. */
  function SelectBills(bills: seq<Bill>, customer: int, before: Option<int>): seq<Bill> {
    if bills == [] then []
    else
      var last, rest := bills[|bills| - 1], SelectBills(bills[..|bills| - 1], customer, before);
      if Selected(last, customer, before) then [last] + rest else rest
  }

  function PageSize(limit: Option<int>): (size: nat)
    ensures 0 < size <= MAX_LIMIT
  {
    if limit.None? || limit.value <= 0 then DEFAULT_LIMIT
    else if limit.value < MAX_LIMIT then limit.value else MAX_LIMIT
  }

  function PageBills(bills: seq<Bill>, customer: int, cursor: Option<int>, limit: Option<int>): (page: BillPage)
    ensures |page.bills| <= PageSize(limit)
  {
    CutOff(SelectBills(bills, customer, cursor), PageSize(limit))
  }

  /** One row past the size is fetched; it tells whether another page exists. */
  function CutOff(selected: seq<Bill>, size: nat): (page: BillPage)
    requires size > 0
    ensures |page.bills| <= size
  {
    var rows := if |selected| > size + 1 then selected[..size + 1] else selected;
    var more := |rows| > size;
    var pageRows := if more then rows[..size] else rows;
    BillPage(pageRows, if more then Some(pageRows[|pageRows| - 1].id) else None)
  }

  /** Downwards by id is upwards by the negated id. */
  function Negated(bills: seq<Bill>): seq<int> {
    seq(|bills|, i requires 0 <= i < |bills| => -bills[i].id)
  }

  function NegatedCursor(cursor: Option<int>): Option<int> {
    if cursor.None? then None else Some(-cursor.value)
  }

  lemma {:induction false} SelectBillsIncreases(bills: seq<Bill>, customer: int, before: Option<int>)
    requires BillsSorted(bills)
    ensures var selected := SelectBills(bills, customer, before);
      && Increasing(Negated(selected))
      && forall i :: 0 <= i < |selected| ==> bills != [] && selected[i].id <= bills[|bills| - 1].id
    ensures forall b :: b in SelectBills(bills, customer, before) <==> b in bills && Selected(b, customer, before)
  {
    if bills != [] {
      var n := |bills| - 1;
      SelectBillsIncreases(bills[..n], customer, before);
      var rest := SelectBills(bills[..n], customer, before);
      Joined([-bills[n].id], Negated(rest));
      assert Negated([bills[n]] + rest) == [-bills[n].id] + Negated(rest);
      assert forall b :: b in bills <==> b == bills[n] || b in bills[..n];
    }
  }

  lemma {:induction false} SelectBillsIsAfter(bills: seq<Bill>, customer: int, before: Option<int>)
    requires BillsSorted(bills)
    ensures Negated(SelectBills(bills, customer, before))
         == After(Negated(SelectBills(bills, customer, None)), NegatedCursor(before))
  {
    if bills != [] {
      var n := |bills| - 1;
      SelectBillsIsAfter(bills[..n], customer, before);
      if bills[n].customer == customer {
        var rest := SelectBills(bills[..n], customer, None);
        assert SelectBills(bills, customer, None) == [bills[n]] + rest;
        NegatedFirst(bills[n], rest);
        if Selected(bills[n], customer, before) {
          SelectBillsIncreases(bills[..n], customer, None);
          AfterAll(Negated(rest), NegatedCursor(before));
          assert SelectBills(bills, customer, before) == [bills[n]] + SelectBills(bills[..n], customer, before);
          NegatedFirst(bills[n], SelectBills(bills[..n], customer, before));
        }
      }
    }
  }

  lemma NegatedFirst(b: Bill, rest: seq<Bill>)
    ensures Negated([b] + rest) == [-b.id] + Negated(rest)
    ensures ([-b.id] + Negated(rest))[1..] == Negated(rest)
  {
  }

  /** A page of bills is a keyset page over the negated ids. */
  lemma PageBillsIsAPage(bills: seq<Bill>, customer: int, cursor: Option<int>, limit: Option<int>)
    requires BillsSorted(bills)
    ensures var page := PageBills(bills, customer, cursor, limit);
      var keys := PageOf(Negated(SelectBills(bills, customer, None)), NegatedCursor(cursor), PageSize(limit));
      Negated(page.bills) == keys.keys && NegatedCursor(page.next) == keys.next
  {
    SelectBillsIsAfter(bills, customer, cursor);
    CutOffIsAPage(SelectBills(bills, customer, cursor), PageSize(limit));
    NegatedKeepsLength(SelectBills(bills, customer, cursor));
    hide SelectBills, After, Negated, CutOff, BillsSorted;
  }

  lemma CutOffIsAPage(selected: seq<Bill>, size: nat)
    requires size > 0
    ensures var page := CutOff(selected, size);
      if |selected| > size
      then Negated(page.bills) == Negated(selected)[..size]
           && NegatedCursor(page.next) == Some(Negated(selected)[size - 1])
      else Negated(page.bills) == Negated(selected) && page.next == None
  {
    var page := CutOff(selected, size);
    assert page.bills == selected[..|page.bills|];
  }

  ghost predicate Downwards(bills: seq<Bill>) {
    forall i, j :: 0 <= i < j < |bills| ==> bills[i].id > bills[j].id
  }

  /** The page holds the customer's bills below the cursor, newest first: as many as asked for, 20 if the client
      does not say and at most 100. It leaves out only older ones, and says so by a cursor, its last id. */
  lemma BillPageHolds(bills: seq<Bill>, customer: int, cursor: Option<int>, limit: Option<int>)
    requires BillsSorted(bills)
    ensures var page := PageBills(bills, customer, cursor, limit); var got := page.bills;
      var size := if limit.None? || limit.value <= 0 then 20 else if limit.value > 100 then 100 else limit.value;
      && |got| <= size && Downwards(got)
      && (forall b :: b in got ==> b in bills && b.customer == customer && (cursor.Some? ==> b.id < cursor.value))
      && (forall b :: b in bills && b.customer == customer && (cursor.Some? ==> b.id < cursor.value) ==>
           b in got || (page.next.Some? && b.id < page.next.value))
      && (page.next.Some? ==> |got| == size && page.next.value == got[size - 1].id)
      && (page.next.Some? <==>
           exists b :: b in bills && b.customer == customer && (cursor.Some? ==> b.id < cursor.value) && b !in got)
  {
    hide SelectBills, BillsSorted, CutOff;
    BillsSelected(bills, customer, cursor);
    BillsCutOff(SelectBills(bills, customer, cursor), PageSize(limit));
  }

  lemma BillsSelected(bills: seq<Bill>, customer: int, cursor: Option<int>)
    requires BillsSorted(bills)
    ensures forall b :: b in SelectBills(bills, customer, cursor) <==>
      b in bills && b.customer == customer && (cursor.Some? ==> b.id < cursor.value)
    ensures Downwards(SelectBills(bills, customer, cursor))
  {
    SelectBillsIncreases(bills, customer, cursor);
    var selected := SelectBills(bills, customer, cursor);
    hide SelectBills, BillsSorted;
    assert forall i :: 0 <= i < |selected| ==> Negated(selected)[i] == -selected[i].id;
  }

  lemma BillsCutOff(selected: seq<Bill>, size: nat)
    requires size > 0 && Downwards(selected)
    ensures var page := CutOff(selected, size); var got := page.bills;
      && |got| <= size && Downwards(got)
      && (forall b :: b in got ==> b in selected)
      && (forall b :: b in selected ==> b in got || (page.next.Some? && b.id < page.next.value))
      && (page.next.Some? ==> |got| == size && page.next.value == got[size - 1].id)
      && (page.next.Some? <==> exists b :: b in selected && b !in got)
  {
    var page := CutOff(selected, size);
    var got := page.bills;
    assert got == if |selected| > size then selected[..size] else selected;
    assert page.next == if |selected| > size then Some(selected[size - 1].id) else None;
    hide CutOff;
    if |selected| > size {
      assert selected[size] in selected && selected[size] !in got;
    }
    forall b | b in selected ensures b in got || (page.next.Some? && b.id < page.next.value) {
      var i :| 0 <= i < |selected| && selected[i] == b;
      assert i < |got| ==> got[i] == b;
    }
  }

  /** A customer's walk through their bills while bills come and go: tables[i] is what page i sees. */
  function WalkBills(tables: seq<seq<Bill>>, customer: int, cursor: Option<int>, limit: Option<int>): seq<Bill>
    decreases |tables|
  {
    if tables == [] then []
    else
      var page := PageBills(tables[0], customer, cursor, limit);
      page.bills + if page.next.None? then [] else WalkBills(tables[1..], customer, page.next, limit)
  }

  predicate LastPage(tables: seq<seq<Bill>>, customer: int, cursor: Option<int>, limit: Option<int>)
    decreases |tables|
  {
    tables != []
    && var next := PageBills(tables[0], customer, cursor, limit).next;
      next.None? || LastPage(tables[1..], customer, next, limit)
  }

  function BillViews(tables: seq<seq<Bill>>, customer: int, limit: Option<int>): seq<View> {
    seq(|tables|, i requires 0 <= i < |tables| =>
      View(Negated(SelectBills(tables[i], customer, None)), PageSize(limit)))
  }

  lemma {:induction false} WalkBillsIsAWalk(tables: seq<seq<Bill>>, customer: int, cursor: Option<int>,
                                            limit: Option<int>)
    requires forall i :: 0 <= i < |tables| ==> BillsSorted(tables[i])
    ensures ValidViews(BillViews(tables, customer, limit))
    ensures Negated(WalkBills(tables, customer, cursor, limit))
         == Collected(BillViews(tables, customer, limit), NegatedCursor(cursor))
    ensures LastPage(tables, customer, cursor, limit)
       <==> Finished(BillViews(tables, customer, limit), NegatedCursor(cursor))
    decreases |tables|
  {
    forall i | 0 <= i < |tables| ensures ValidView(BillViews(tables, customer, limit)[i]) {
      SelectBillsIncreases(tables[i], customer, None);
    }
    if tables != [] {
      PageBillsIsAPage(tables[0], customer, cursor, limit);
      assert BillViews(tables, customer, limit)[1..] == BillViews(tables[1..], customer, limit);
      var page := PageBills(tables[0], customer, cursor, limit);
      WalkBillsIsAWalk(tables[1..], customer, page.next, limit);
      NegatedJoins(page.bills, WalkBills(tables[1..], customer, page.next, limit));
    }
  }

  lemma NegatedJoins(a: seq<Bill>, b: seq<Bill>)
    ensures Negated(a + b) == Negated(a) + Negated(b)
    ensures Negated(a + []) == Negated(a) + []
  {
  }

  /** The customer has a bill with this id. */
  predicate HasBill(bills: seq<Bill>, customer: int, id: int) {
    exists i :: 0 <= i < |bills| && bills[i].id == id && bills[i].customer == customer
  }

  lemma SelectedEverywhere(tables: seq<seq<Bill>>, customer: int, limit: Option<int>, id: int)
    requires forall i :: 0 <= i < |tables| ==> BillsSorted(tables[i]) && HasBill(tables[i], customer, id)
    ensures forall i :: 0 <= i < |tables| ==> -id in BillViews(tables, customer, limit)[i].keys
  {
    forall i | 0 <= i < |tables| ensures -id in BillViews(tables, customer, limit)[i].keys {
      SelectBillsIncreases(tables[i], customer, None);
      var selected := SelectBills(tables[i], customer, None);
      var k :| 0 <= k < |tables[i]| && tables[i][k].id == id && tables[i][k].customer == customer;
      assert tables[i][k] in selected;
      var j :| 0 <= j < |selected| && selected[j] == tables[i][k];
      assert Negated(selected)[j] == -id;
    }
  }

  /** Whatever is inserted or deleted between pages: no bill comes twice, and ids descend. */
  lemma BillWalkDescends(tables: seq<seq<Bill>>, customer: int, limit: Option<int>)
    requires forall i :: 0 <= i < |tables| ==> BillsSorted(tables[i])
    ensures var walked := WalkBills(tables, customer, None, limit);
      forall i, j :: 0 <= i < j < |walked| ==> walked[i].id > walked[j].id
  {
    var walked := WalkBills(tables, customer, None, limit);
    WalkBillsIsAWalk(tables, customer, None, limit);
    WalkIncreases(BillViews(tables, customer, limit), None);
    forall i, j | 0 <= i < j < |walked| ensures walked[i].id > walked[j].id {
      assert Negated(walked)[i] < Negated(walked)[j];
    }
  }

  /** A walk that came to its last page has every bill the customer had throughout, however its row
      changed meanwhile. */
  lemma BillWalkMissesNothing(tables: seq<seq<Bill>>, customer: int, limit: Option<int>, id: int)
    requires forall i :: 0 <= i < |tables| ==> BillsSorted(tables[i]) && HasBill(tables[i], customer, id)
    requires LastPage(tables, customer, None, limit)
    ensures var walked := WalkBills(tables, customer, None, limit); exists i :: 0 <= i < |walked| && walked[i].id == id
  {
    var walked := WalkBills(tables, customer, None, limit);
    WalkBillsIsAWalk(tables, customer, None, limit);
    SelectedEverywhere(tables, customer, limit, id);
    WalkMissesNothing(BillViews(tables, customer, limit), None, -id);
    var i :| 0 <= i < |Negated(walked)| && Negated(walked)[i] == -id;
    assert walked[i].id == id;
  }

  // --- The same upwards ----------------------------------------------------------------------

  function VehicleViews(tables: seq<seq<Vehicle>>, filter: Filter, limit: nat): seq<View> {
    seq(|tables|, i requires 0 <= i < |tables| => View(Ids(Select(tables[i], 0, filter)), limit))
  }

  /** The vehicle with this id is there, and matches. */
  predicate HasMatch(rows: seq<Vehicle>, filter: Filter, id: int) {
    exists i :: 0 <= i < |rows| && rows[i].id == id && filter.Matches(rows[i])
  }

  lemma MatchIsSelected(rows: seq<Vehicle>, filter: Filter, id: int)
    requires HasMatch(rows, filter, id)
    ensures id in Ids(Select(rows, 0, filter))
  {
    SelectAre(rows, 0, filter);
    var selected := Select(rows, 0, filter);
    var k :| 0 <= k < |rows| && rows[k].id == id && filter.Matches(rows[k]);
    assert rows[k] in selected;
    var j :| 0 <= j < |selected| && selected[j] == rows[k];
    assert Ids(selected)[j] == id;
  }

  /** Following List's cursors through changing tables: ids ascend without repeats, and every
      finished walk meets each vehicle that was there and matched throughout, however its row changed. */
  lemma VehicleWalkIsExact(tables: seq<seq<Vehicle>>, filter: Filter, limit: nat, id: int)
    requires limit > 0 && forall i :: 0 <= i < |tables| ==> SortedById(tables[i])
    ensures var views := VehicleViews(tables, filter, limit);
      && Increasing(Collected(views, None))
      && (Finished(views, None) && (forall i :: 0 <= i < |tables| ==> HasMatch(tables[i], filter, id))
          ==> id in Collected(views, None))
  {
    var views := VehicleViews(tables, filter, limit);
    forall i | 0 <= i < |tables|
      ensures ValidView(views[i]) && (HasMatch(tables[i], filter, id) ==> id in views[i].keys)
    {
      SelectIncreases(tables[i], 0, filter);
      if HasMatch(tables[i], filter, id) {
        MatchIsSelected(tables[i], filter, id);
      }
    }
    WalkIncreases(views, None);
    if Finished(views, None) && forall i :: 0 <= i < |tables| ==> HasMatch(tables[i], filter, id) {
      WalkMissesNothing(views, None, id);
    }
  }

  /** On a table that stands still, pages of this limit walk exactly the filtered list, and are
      done as soon as they have room for it. */
  lemma FixedVehicleWalk(rows: seq<Vehicle>, pages: nat, filter: Filter, limit: nat)
    requires limit > 0 && SortedById(rows)
    ensures var views := VehicleViews(seq(pages, _ => rows), filter, limit); var all := Ids(Select(rows, 0, filter));
      && (Finished(views, None) <==> pages > 0 && |all| <= pages * limit)
      && (Finished(views, None) ==> Collected(views, None) == all)
  {
    var views := VehicleViews(seq(pages, _ => rows), filter, limit);
    SelectIncreases(rows, 0, filter);
    var all := Ids(Select(rows, 0, filter));
    assert forall i :: 0 <= i < |views| ==> ValidView(views[i]) && views[i].keys == all;
    FixedWalk(views, all, None);
    LimitsAdd(views, limit);
    AfterAll(all, None);
  }

  /** The same downwards. */
  lemma FixedBillWalk(bills: seq<Bill>, pages: nat, customer: int, limit: Option<int>)
    requires BillsSorted(bills)
    ensures var tables := seq(pages, _ => bills); var all := SelectBills(bills, customer, None);
      && (LastPage(tables, customer, None, limit) <==> pages > 0 && |all| <= pages * PageSize(limit))
      && (LastPage(tables, customer, None, limit) ==> WalkBills(tables, customer, None, limit) == all)
  {
    var tables := seq(pages, _ => bills);
    FixedBillWalkKeys(tables, bills, customer, limit);
    if LastPage(tables, customer, None, limit) {
      WalkedAreStored(tables, bills, customer, None, limit);
      SelectBillsIncreases(bills, customer, None);
      SameIds(bills, WalkBills(tables, customer, None, limit), SelectBills(bills, customer, None));
    }
  }

  lemma FixedBillWalkKeys(tables: seq<seq<Bill>>, bills: seq<Bill>, customer: int, limit: Option<int>)
    requires BillsSorted(bills) && forall i :: 0 <= i < |tables| ==> tables[i] == bills
    ensures var all := SelectBills(bills, customer, None);
      && (LastPage(tables, customer, None, limit) <==> tables != [] && |all| <= |tables| * PageSize(limit))
      && (LastPage(tables, customer, None, limit) ==> Negated(WalkBills(tables, customer, None, limit)) == Negated(all))
  {
    var views, selected := BillViews(tables, customer, limit), SelectBills(bills, customer, None);
    WalkBillsIsAWalk(tables, customer, None, limit);
    assert forall i :: 0 <= i < |views| ==> views[i].keys == Negated(selected) && views[i].limit == PageSize(limit);
    assert |views| == |tables|;
    NegatedKeepsLength(selected);
    hide SelectBills, BillViews, PageSize, WalkBills, LastPage, After, Negated, Finished;
    FixedWalk(views, Negated(selected), None);
    LimitsAdd(views, PageSize(limit));
    AfterAll(Negated(selected), None);
  }

  lemma NegatedKeepsLength(bills: seq<Bill>)
    ensures |Negated(bills)| == |bills|
  {
  }

  lemma {:induction false} WalkedAreStored(tables: seq<seq<Bill>>, bills: seq<Bill>, customer: int, cursor: Option<int>,
                                           limit: Option<int>)
    requires BillsSorted(bills) && forall i :: 0 <= i < |tables| ==> tables[i] == bills
    ensures forall b :: b in WalkBills(tables, customer, cursor, limit) ==> b in bills
    decreases |tables|
  {
    if tables != [] {
      SelectBillsIncreases(bills, customer, cursor);
      var page := PageBills(tables[0], customer, cursor, limit);
      var selected := SelectBills(bills, customer, cursor);
      assert forall b :: b in page.bills ==> b in selected;
      WalkedAreStored(tables[1..], bills, customer, page.next, limit);
    }
  }

  /** Stored bills are the same if their ids are. */
  lemma SameIds(bills: seq<Bill>, some: seq<Bill>, others: seq<Bill>)
    requires BillsSorted(bills) && Negated(some) == Negated(others)
    requires (forall b :: b in some ==> b in bills) && (forall b :: b in others ==> b in bills)
    ensures some == others
  {
    assert |some| == |Negated(some)| && |others| == |Negated(others)|;
    forall i | 0 <= i < |some| ensures some[i] == others[i] {
      assert some[i] in bills && others[i] in bills && Negated(some)[i] == Negated(others)[i];
      var j :| 0 <= j < |bills| && bills[j] == some[i];
      var k :| 0 <= k < |bills| && bills[k] == others[i];
    }
  }

  lemma {:induction false} LimitsAdd(views: seq<View>, limit: nat)
    requires forall i :: 0 <= i < |views| ==> views[i].limit == limit
    ensures Limits(views) == |views| * limit
  {
    if views != [] {
      LimitsAdd(views[1..], limit);
    }
  }
}
