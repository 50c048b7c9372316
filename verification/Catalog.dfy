/** Resolving requested service ids against the active catalog. */
module Catalog {
  import opened Prelude

  datatype CatalogService = CatalogService(id: int, name: string, fee: real, durationMinutes: int)

  datatype Error = NothingPicked | UnknownService(id: int)

  function Ids(catalog: seq<CatalogService>): set<int> {
    set i | 0 <= i < |catalog| :: catalog[i].id
  }

  /** The catalog's ids are its primary key. */
  predicate UniqueIds(catalog: seq<CatalogService>) {
    forall i, j :: 0 <= i < j < |catalog| ==> catalog[i].id != catalog[j].id
  }

  /** The elements of s, each where it first occurs. */
  function FirstOccurrences(s: seq<int>): seq<int> {
    if s == [] then []
    else
      var init := FirstOccurrences(s[..|s| - 1]);
      if s[|s| - 1] in s[..|s| - 1] then init else init + [s[|s| - 1]]
  }

  /** services are the catalog's rows for ids, one by one. */
  predicate RowsFor(services: seq<CatalogService>, ids: seq<int>, catalog: seq<CatalogService>) {
    && |services| == |ids|
    && forall i :: 0 <= i < |ids| ==> services[i] in catalog && services[i].id == ids[i]
  }

  /** The catalog's row with this id. */
  function Lookup(catalog: seq<CatalogService>, id: int): CatalogService
    requires id in Ids(catalog)
  {
    if catalog[0].id == id then catalog[0] else LookupFurther(catalog, id); Lookup(catalog[1..], id)
  }

  lemma LookupFurther(catalog: seq<CatalogService>, id: int)
    requires id in Ids(catalog) && catalog[0].id != id
    ensures id in Ids(catalog[1..])
  {
    var i :| 0 <= i < |catalog| && catalog[i].id == id;
    assert catalog[1..][i - 1].id == id;
  }

  lemma {:induction false} LookupIsTheRow(catalog: seq<CatalogService>, svc: CatalogService)
    requires UniqueIds(catalog) && svc in catalog
    ensures svc.id in Ids(catalog) && Lookup(catalog, svc.id) == svc
  {
    var i :| 0 <= i < |catalog| && catalog[i] == svc;
    assert catalog[i].id in Ids(catalog);
    if i > 0 {
      assert catalog[1..][i - 1] == svc;
      LookupIsTheRow(catalog[1..], svc);
    }
  }

  /** The services a request resolves to, if it does. */
  function Resolve(catalog: seq<CatalogService>, ids: seq<int>): Option<seq<CatalogService>> {
    var kept := FirstOccurrences(ids);
    if ids != [] && forall i :: 0 <= i < |kept| ==> kept[i] in Ids(catalog) then
      Some(seq(|kept|, i requires 0 <= i < |kept| => Lookup(catalog, kept[i])))
    else None
  }

  lemma ResolveIsUnique(catalog: seq<CatalogService>, ids: seq<int>, services: seq<CatalogService>)
    requires UniqueIds(catalog) && ids != []
    requires RowsFor(services, FirstOccurrences(ids), catalog)
    ensures Resolve(catalog, ids) == Some(services)
  {
    var kept := FirstOccurrences(ids);
    forall i | 0 <= i < |kept| ensures kept[i] in Ids(catalog) && Lookup(catalog, kept[i]) == services[i] {
      LookupIsTheRow(catalog, services[i]);
    }
    assert Resolve(catalog, ids).value == services;
  }

  lemma UnknownIdFails(catalog: seq<CatalogService>, ids: seq<int>, id: int)
    requires id in ids && id !in Ids(catalog)
    ensures Resolve(catalog, ids) == None
  {
    FirstOccurrencesKeepsEachOnce(ids);
    assert id in FirstOccurrences(ids);
  }

  /** Keeps the caller's order, drops repeats, and fails exactly on an empty list or an unknown id. */
  method ResolveServices(catalog: seq<CatalogService>, ids: seq<int>)
    returns (r: Result<seq<CatalogService>, Error>)
    requires UniqueIds(catalog)
    ensures r.Ok? <==> ids != [] && forall id :: id in ids ==> id in Ids(catalog)
    ensures r.Ok? ==> RowsFor(r.value, FirstOccurrences(ids), catalog)
    ensures r.Err? && r.error.UnknownService? ==> r.error.id in ids && r.error.id !in Ids(catalog)
    ensures r == Err(NothingPicked) <==> ids == []
    ensures Resolve(catalog, ids) == if r.Ok? then Some(r.value) else None
  {
    if |ids| == 0 {
      return Err(NothingPicked);
    }
    hide Resolve, NoRepeats;
    var byId := map[];
    for i := 0 to |catalog|
      invariant byId.Keys == Ids(catalog[..i])
      invariant forall id :: id in byId ==> byId[id] in catalog && byId[id].id == id
    {
      byId := byId[catalog[i].id := catalog[i]];
    }
    assert catalog[..|catalog|] == catalog;

    var resolved := [];
    var seen: map<int, bool> := map[];
    for i := 0 to |ids|
      invariant forall id :: id in seen <==> id in ids[..i]
      invariant forall id :: id in ids[..i] ==> id in Ids(catalog)
      invariant RowsFor(resolved, FirstOccurrences(ids[..i]), catalog)
    {
      var id := ids[i];
      assert ids[..i + 1][..i] == ids[..i];
      if id in seen {
        continue;
      }
      if id !in byId {
        UnknownIdFails(catalog, ids, id);
        return Err(UnknownService(id));
      }
      seen := seen[id := true];
      resolved := resolved + [byId[id]];
    }
    assert ids[..|ids|] == ids;
    ResolveIsUnique(catalog, ids, resolved);
    return Ok(resolved);
  }

  function TotalDuration(services: seq<CatalogService>): int {
    if services == [] then 0
    else TotalDuration(services[..|services| - 1]) + services[|services| - 1].durationMinutes
  }

  function TotalFee(services: seq<CatalogService>): real {
    if services == [] then 0.0 else TotalFee(services[..|services| - 1]) + services[|services| - 1].fee
  }

  method SumDuration(services: seq<CatalogService>) returns (total: int)
    ensures total == TotalDuration(services)
  {
    total := 0;
    for i := 0 to |services|
      invariant total == TotalDuration(services[..i])
    {
      total := total + services[i].durationMinutes;
      assert services[..i + 1][..i] == services[..i];
    }
    assert services[..|services|] == services;
  }

  /** Durations and fees are what single services take and cost, added up. */
  lemma {:induction false} TotalsAddUp(one: seq<CatalogService>, other: seq<CatalogService>)
    ensures TotalDuration([]) == 0 && TotalFee([]) == 0.0
    ensures forall svc :: TotalDuration([svc]) == svc.durationMinutes && TotalFee([svc]) == svc.fee
    ensures TotalDuration(one + other) == TotalDuration(one) + TotalDuration(other)
    ensures TotalFee(one + other) == TotalFee(one) + TotalFee(other)
    decreases |other|
  {
    forall svc ensures TotalDuration([svc]) == svc.durationMinutes && TotalFee([svc]) == svc.fee {
      assert [svc][..0] == [];
    }
    if other == [] {
      assert one + other == one;
    } else {
      var n := |other| - 1;
      TotalsAddUp(one, other[..n]);
      assert (one + other)[..|one + other| - 1] == one + other[..n];
    }
  }

  predicate NoRepeats<T(==)>(s: seq<T>) {
    forall i, j :: 0 <= i < j < |s| ==> s[i] != s[j]
  }

  lemma {:induction false} FirstOccurrencesKeepsEachOnce(s: seq<int>)
    ensures NoRepeats(FirstOccurrences(s))
    ensures forall x :: x in FirstOccurrences(s) <==> x in s
  {
    if s != [] {
      var init := s[..|s| - 1];
      FirstOccurrencesKeepsEachOnce(init);
      assert s == init + [s[|s| - 1]];
    }
  }

  /** The first place an element of s occurs at. */
  function IndexOf(s: seq<int>, x: int): (i: nat)
    requires x in s
    ensures i < |s| && s[i] == x && forall j :: 0 <= j < i ==> s[j] != x
  {
    if s[0] == x then 0 else assert x in s[1..]; IndexOf(s[1..], x) + 1
  }

  /** The kept elements stand in the order in which the caller first named them. */
  lemma {:induction false} FirstOccurrencesKeepsOrder(s: seq<int>, i: nat, j: nat)
    requires i < j < |FirstOccurrences(s)|
    requires FirstOccurrences(s)[i] in s && FirstOccurrences(s)[j] in s
    ensures IndexOf(s, FirstOccurrences(s)[i]) < IndexOf(s, FirstOccurrences(s)[j])
  {
    var init := s[..|s| - 1];
    FirstOccurrencesKeepsEachOnce(init);
    var kept := FirstOccurrences(init);
    assert FirstOccurrences(s)[i] == kept[i] && kept[i] in init;
    IndexInPrefix(s, |s| - 1, kept[i]);
    if j < |kept| {
      assert kept[j] in init;
      FirstOccurrencesKeepsOrder(init, i, j);
      IndexInPrefix(s, |s| - 1, kept[j]);
    } else {
      var last := s[|s| - 1];
      var k := IndexOf(s, last);
      assert k < |s| - 1 ==> last == init[k];
    }
  }

  lemma IndexInPrefix(s: seq<int>, n: nat, x: int)
    requires n <= |s| && x in s[..n]
    ensures x in s && IndexOf(s, x) == IndexOf(s[..n], x)
  {
    var k := IndexOf(s[..n], x);
    assert s[k] == x && forall j :: 0 <= j < k ==> s[..n][j] == s[j];
  }

  /** Totals depend on which services are picked, not on order or repetition. */
  lemma TotalsDependOnTheSet(catalog: seq<CatalogService>, ids: seq<int>, ids': seq<int>,
                             services: seq<CatalogService>, services': seq<CatalogService>)
    requires UniqueIds(catalog)
    requires RowsFor(services, FirstOccurrences(ids), catalog)
    requires RowsFor(services', FirstOccurrences(ids'), catalog)
    requires forall id :: id in ids <==> id in ids'
    ensures TotalDuration(services) == TotalDuration(services')
    ensures TotalFee(services) == TotalFee(services')
  {
    var kept, kept' := FirstOccurrences(ids), FirstOccurrences(ids');
    FirstOccurrencesKeepsEachOnce(ids);
    FirstOccurrencesKeepsEachOnce(ids');
    forall svc | svc in services ensures svc in services' {
      var i :| 0 <= i < |services| && services[i] == svc;
      assert kept[i] in kept';
      var j :| 0 <= j < |kept'| && kept'[j] == kept[i];
      assert services'[j] == svc;
    }
    forall svc | svc in services' ensures svc in services {
      var i :| 0 <= i < |services'| && services'[i] == svc;
      assert kept'[i] in kept;
      var j :| 0 <= j < |kept| && kept[j] == kept'[i];
      assert services[j] == svc;
    }
    SameElementsSameTotals(services, services');
  }

  lemma {:induction false} SameElementsSameTotals(a: seq<CatalogService>, b: seq<CatalogService>)
    requires NoRepeats(a) && NoRepeats(b)
    requires forall x :: x in a <==> x in b
    ensures TotalDuration(a) == TotalDuration(b) && TotalFee(a) == TotalFee(b)
  {
    assert |b| > 0 ==> b[0] in a;
    if a != [] {
      var n := |a| - 1;
      assert a[n] in b;
      var k :| 0 <= k < |b| && b[k] == a[n];
      LastTakenOut(a);
      ElementTakenOut(b, k);
      TakingOneOut(b, k);
      var rest := b[..k] + b[k + 1..];
      hide NoRepeats;
      SameElementsSameTotals(a[..n], rest);
    }
  }

  lemma LastTakenOut(a: seq<CatalogService>)
    requires NoRepeats(a) && a != []
    ensures var n := |a| - 1; NoRepeats(a[..n]) && forall x :: x in a[..n] <==> x in a && x != a[n]
  {
  }

  lemma ElementTakenOut(b: seq<CatalogService>, k: nat)
    requires NoRepeats(b) && k < |b|
    ensures var rest := b[..k] + b[k + 1..]; NoRepeats(rest) && forall x :: x in rest <==> x in b && x != b[k]
  {
  }

  lemma {:induction false} TakingOneOut(b: seq<CatalogService>, k: nat)
    requires k < |b|
    ensures TotalDuration(b) == TotalDuration(b[..k] + b[k + 1..]) + b[k].durationMinutes
    ensures TotalFee(b) == TotalFee(b[..k] + b[k + 1..]) + b[k].fee
  {
    var n := |b| - 1;
    if k == n {
      assert b[..k] + b[k + 1..] == b[..n];
    } else {
      var rest := b[..k] + b[k + 1..];
      TakingOneOut(b[..n], k);
      assert rest[..|rest| - 1] == b[..n][..k] + b[..n][k + 1..];
    }
  }
}
