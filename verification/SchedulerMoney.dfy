/** Decimal fees and integer minor units, from the booked total to the bill.

    A decimal amount is exact in the source, so it is a real number here. Both
    services convert it with the same table of currencies: scheduler-service
    when it publishes ServiceCompleted, billing-service when it reads the total
    of an AppointmentBooked event. */
module SchedulerMoney {
  import opened Prelude

  const INT64_MIN: int := -0x8000_0000_0000_0000
  const INT64_MAX: int := 0x7FFF_FFFF_FFFF_FFFF

  const ZERO_DECIMAL: set<string> := {
    "BIF", "CLP", "DJF", "GNF", "JPY", "KMF", "KRW", "MGA",
    "PYG", "RWF", "UGX", "VND", "VUV", "XAF", "XOF", "XPF"
  }
  const THREE_DECIMAL: set<string> := {"BHD", "JOD", "KWD", "OMR", "TND"}

  datatype BookedService = BookedService(serviceId: int, name: string, fee: real)

  datatype CompletedLine = CompletedLine(serviceId: int, name: string, quantity: int, unitPriceMinor: int)

  predicate FitsInt64(x: int) {
    INT64_MIN <= x <= INT64_MAX
  }

  /** What an int64 holds after a conversion that does not check the range. */
  function Wrap64(x: int): int {
    (x - INT64_MIN) % 0x1_0000_0000_0000_0000 + INT64_MIN
  }

  function Upper(code: string): string {
    seq(|code|, i requires 0 <= i < |code| =>
      if 'a' <= code[i] <= 'z' then (code[i] as int - 32) as char else code[i])
  }

  function Decimals(currency: string): int {
    var code := Upper(currency);
    if code in ZERO_DECIMAL then 0 else if code in THREE_DECIMAL then 3 else 2
  }

  /** Ten to the number of decimals. */
  function MinorPerMajor(currency: string): (r: int)
    ensures r == 1 || r == 100 || r == 1000
  {
    match Decimals(currency)
    case 0 => 1
    case 3 => 1000
    case _ => 100
  }

  function Shift(amount: real, currency: string): real {
    amount * MinorPerMajor(currency) as real
  }

  predicate Whole(x: real) {
    x == x.Floor as real
  }

  /** An amount finer than the currency is an error, never rounded. */
  function ToMinor(amount: real, currency: string): Result<int, string> {
    var shifted := Shift(amount, currency);
    if !Whole(shifted) then Err("more decimals than the currency allows")
    else Ok(Wrap64(shifted.Floor))
  }

  /** billing-service's Money.ofMajor: like ToMinor, but out of range is an error. */
  function OfMajor(amount: real, currency: string): Result<int, string> {
    var shifted := Shift(amount, currency);
    if !Whole(shifted) || !FitsInt64(shifted.Floor) then Err("does not fit the currency")
    else Ok(shifted.Floor)
  }

  function Total(services: seq<BookedService>): real {
    if services == [] then 0.0 else Total(services[..|services| - 1]) + services[|services| - 1].fee
  }

  function LinesTotal(lines: seq<CompletedLine>): int {
    if lines == [] then 0
    else LinesTotal(lines[..|lines| - 1]) + lines[|lines| - 1].unitPriceMinor * lines[|lines| - 1].quantity
  }

  predicate EveryFeeConverts(services: seq<BookedService>, currency: string) {
    forall i :: 0 <= i < |services| ==> ToMinor(services[i].fee, currency).Ok?
  }

  /** The lines of the ServiceCompleted event: filled in order, given up at the first fee that does not convert. */
  method NewServiceCompletedLines(services: seq<BookedService>, currency: string)
    returns (r: Result<seq<CompletedLine>, string>)
    ensures r.Ok? <==> EveryFeeConverts(services, currency)
    ensures r.Ok? ==> IsCompletionOf(r.value, services, currency)
  {
    var lines := new CompletedLine[|services|];
    for i := 0 to |services|
      invariant EveryFeeConverts(services[..i], currency)
      invariant IsCompletionOf(lines[..i], services[..i], currency)
    {
      var minor := ToMinor(services[i].fee, currency);
      if minor.Err? {
        return Err(minor.error);
      }
      lines[i] := CompletedLine(services[i].serviceId, services[i].name, 1, minor.value);
    }
    assert services[..|services|] == services;
    return Ok(lines[..]);
  }

  predicate IsCompletionOf(lines: seq<CompletedLine>, services: seq<BookedService>, currency: string) {
    && |lines| == |services|
    && forall i :: 0 <= i < |services| ==>
         && lines[i].serviceId == services[i].serviceId
         && lines[i].name == services[i].name
         && lines[i].quantity == 1
         && ToMinor(services[i].fee, currency) == Ok(lines[i].unitPriceMinor)
  }

  predicate IsExactly(minor: int, shifted: real) {
    minor as real == shifted
  }

  /** A conversion that succeeds and fits is exact, and it fails exactly on a finer amount. */
  lemma ToMinorNeverRounds(amount: real, currency: string)
    ensures ToMinor(amount, currency).Err? <==> !(exists m: int :: IsExactly(m, Shift(amount, currency)))
    ensures var r := ToMinor(amount, currency);
      r.Ok? ==> (IsExactly(r.value, Shift(amount, currency)) <==> FitsInt64(Shift(amount, currency).Floor))
  {
    var shifted := Shift(amount, currency);
    assert Whole(shifted) ==> IsExactly(shifted.Floor, shifted);
    forall m: int | IsExactly(m, shifted) ensures Whole(shifted) {
      assert (m as real).Floor == m;
    }
    WrapIsIdentityInRange(shifted.Floor);
  }

  /** The wrapped number is the one of the 64-bit range that differs by a multiple of two to the 64. */
  lemma WrapsAround(x: int)
    ensures FitsInt64(Wrap64(x)) && (Wrap64(x) - x) % 0x1_0000_0000_0000_0000 == 0
  {
    var m := 0x1_0000_0000_0000_0000;
    var q := (x - INT64_MIN) / m;
    assert Wrap64(x) - x == -q * m;
  }

  lemma WrapIsIdentityInRange(x: int)
    ensures Wrap64(x) == x <==> FitsInt64(x)
  {
  }

  /** The exact minor units of the lines add up to the exact minor units of the total. */
  lemma {:induction false} TotalShifts(services: seq<BookedService>, currency: string)
    requires forall i :: 0 <= i < |services| ==> Whole(Shift(services[i].fee, currency))
    ensures Whole(Shift(Total(services), currency))
    ensures Shift(Total(services), currency).Floor == ExactMinor(services, currency)
  {
    if services != [] {
      var n := |services| - 1;
      TotalShifts(services[..n], currency);
      ShiftAdds(Total(services[..n]), services[n].fee, currency);
      WholeAdds(Shift(Total(services[..n]), currency), Shift(services[n].fee, currency));
    }
  }

  function ExactMinor(services: seq<BookedService>, currency: string): int {
    if services == [] then 0
    else ExactMinor(services[..|services| - 1], currency) + Shift(services[|services| - 1].fee, currency).Floor
  }

  lemma ShiftAdds(a: real, b: real, currency: string)
    ensures Shift(a + b, currency) == Shift(a, currency) + Shift(b, currency)
  {
  }

  lemma WholeAdds(a: real, b: real)
    requires Whole(a) && Whole(b)
    ensures Whole(a + b) && (a + b).Floor == a.Floor + b.Floor
  {
    var m := a.Floor + b.Floor;
    assert (m as real).Floor == m;
  }

  function RoundHalfAway(x: real): int {
    if x >= 0.0 then (x + 0.5).Floor else -((-x + 0.5).Floor)
  }

  /** The amount as the AppointmentBooked event writes it: with two decimals, in every currency. */
  function FixedTwo(x: real): real {
    RoundHalfAway(x * 100.0) as real / 100.0
  }

  lemma WholeIsRound(y: real)
    ensures Whole(y) <==> RoundHalfAway(y) as real == y
  {
    var n, k := y.Floor, RoundHalfAway(y);
    assert (k as real).Floor == k;
    if Whole(y) {
      if y >= 0.0 {
        assert k as real <= n as real + 0.5 < k as real + 1.0;
      } else {
        assert (-k) as real <= (-n) as real + 0.5 < (-k) as real + 1.0;
      }
      assert k == n;
    }
  }

  lemma CentsBack(x: real, n: int)
    ensures n as real / 100.0 == x <==> n as real == x * 100.0
  {
  }

  /** Two decimals are exact for whole cents, and for nothing else. */
  lemma FixedTwoIsExactIff(x: real)
    ensures FixedTwo(x) == x <==> Whole(x * 100.0)
  {
    WholeIsRound(x * 100.0);
    CentsBack(x, RoundHalfAway(x * 100.0));
    hide RoundHalfAway, Whole;
  }

  /** The text is the nearest number of cents, and the one away from zero if two are as near. */
  lemma FixedTwoIsTheNearest(x: real)
    ensures Whole(FixedTwo(x) * 100.0)
    ensures -0.005 <= FixedTwo(x) - x <= 0.005
    ensures FixedTwo(x) - x == 0.005 ==> x >= 0.0
    ensures FixedTwo(x) - x == -0.005 ==> x <= 0.0
  {
    var cents := RoundHalfAway(x * 100.0);
    assert FixedTwo(x) * 100.0 == cents as real && (cents as real).Floor == cents;
  }

  /** Money is conserved from booking to bill: whatever lines ServiceCompleted carries,
      they add up to the minor units of the booked total as scheduler converts it. What
      billing reads from the AppointmentBooked event is that amount exactly if the total
      is in whole cents. */
  lemma MoneyIsConserved(services: seq<BookedService>, lines: seq<CompletedLine>, currency: string)
    requires IsCompletionOf(lines, services, currency)
    requires EveryMinorFits(services, currency)
    ensures ToMinor(Total(services), currency) == Ok(LinesTotal(lines))
    ensures OfMajor(FixedTwo(Total(services)), currency) == Ok(LinesTotal(lines)) <==> Whole(Total(services) * 100.0)
  {
    TotalShifts(services, currency);
    LinesAreExact(services, lines, currency);
    assert services[..|services|] == services;
    WrapIsIdentityInRange(ExactMinor(services, currency));
    FixedTwoIsExactIff(Total(services));
    if OfMajor(FixedTwo(Total(services)), currency) == Ok(LinesTotal(lines)) {
      ShiftIsInjective(FixedTwo(Total(services)), Total(services), currency);
    }
  }

  lemma ShiftIsInjective(a: real, b: real, currency: string)
    requires Shift(a, currency) == Shift(b, currency)
    ensures a == b
  {
  }

  lemma {:induction false} CatalogTotalsAreInCents(services: seq<BookedService>)
    requires forall i :: 0 <= i < |services| ==> CatalogFee(services[i].fee)
    ensures Whole(Total(services) * 100.0)
  {
    if services != [] {
      var n := |services| - 1;
      CatalogTotalsAreInCents(services[..n]);
      assert CatalogFee(services[n].fee);
      WholeAdds(Total(services[..n]) * 100.0, services[n].fee * 100.0);
      assert Total(services) * 100.0 == Total(services[..n]) * 100.0 + services[n].fee * 100.0;
    }
  }

  /** The catalog's fees are in whole cents, so billing reads exactly what the lines add up to. */
  lemma CatalogMoneyIsConserved(services: seq<BookedService>, lines: seq<CompletedLine>, currency: string)
    requires forall i :: 0 <= i < |services| ==> CatalogFee(services[i].fee)
    requires |services| <= 10 && IsCompletionOf(lines, services, currency)
    ensures OfMajor(FixedTwo(Total(services)), currency) == Ok(LinesTotal(lines))
  {
    CatalogFeesFit(services, currency);
    CatalogTotalsAreInCents(services);
    MoneyIsConserved(services, lines, currency);
  }

  /** Each fee and the whole total fit the 64-bit integer that carries them. */
  predicate EveryMinorFits(services: seq<BookedService>, currency: string) {
    && (forall i :: 0 <= i < |services| ==> FitsInt64(Shift(services[i].fee, currency).Floor))
    && FitsInt64(Shift(Total(services), currency).Floor)
  }

  lemma {:induction false} LinesAreExact(services: seq<BookedService>, lines: seq<CompletedLine>, currency: string)
    requires IsCompletionOf(lines, services, currency)
    requires forall i :: 0 <= i < |services| ==> FitsInt64(Shift(services[i].fee, currency).Floor)
    ensures LinesTotal(lines) == ExactMinor(services, currency)
  {
    if services != [] {
      var n := |services| - 1;
      LinesAreExact(services[..n], lines[..n], currency);
      WrapIsIdentityInRange(Shift(services[n].fee, currency).Floor);
    }
  }

  /** The catalog's fees: numeric(12,2), never negative. */
  predicate CatalogFee(fee: real) {
    0.0 <= fee < 10_000_000_000.0 && Whole(fee * 100.0)
  }

  /** Ten lines of catalog fees can never leave the 64-bit range, in any currency. */
  lemma {:induction false} CatalogFeesFit(services: seq<BookedService>, currency: string)
    requires |services| <= 10
    requires forall i :: 0 <= i < |services| ==> CatalogFee(services[i].fee)
    ensures EveryMinorFits(services, currency)
  {
    TotalBounds(services);
    var p := MinorPerMajor(currency);
    assert p as real <= 1000.0;
    assert 0.0 <= Shift(Total(services), currency) <= 100_000_000_000_000.0;
    forall i | 0 <= i < |services| ensures FitsInt64(Shift(services[i].fee, currency).Floor) {
      assert 0.0 <= Shift(services[i].fee, currency) <= 10_000_000_000_000.0;
    }
  }

  lemma {:induction false} TotalBounds(services: seq<BookedService>)
    requires forall i :: 0 <= i < |services| ==> CatalogFee(services[i].fee)
    ensures 0.0 <= Total(services) <= |services| as real * 10_000_000_000.0
  {
    if services != [] {
      var n := |services| - 1;
      TotalBounds(services[..n]);
      assert CatalogFee(services[n].fee);
      assert |services| as real == n as real + 1.0;
    }
  }

  /** In a currency with at least two decimals every catalog fee converts. */
  lemma TwoDecimalsAlwaysConvert(services: seq<BookedService>, currency: string)
    requires forall i :: 0 <= i < |services| ==> CatalogFee(services[i].fee)
    requires Decimals(currency) >= 2
    ensures EveryFeeConverts(services, currency)
  {
    forall i | 0 <= i < |services| ensures ToMinor(services[i].fee, currency).Ok? {
      var cents := (services[i].fee * 100.0).Floor;
      assert CatalogFee(services[i].fee);
      assert services[i].fee * 100.0 == cents as real;
      assert services[i].fee * 1000.0 == (cents * 10) as real;
      assert ((cents * 10) as real).Floor == cents * 10;
    }
  }

  /** The converse of conservation fails: a total can convert when its fees do not. */
  lemma TotalMayConvertWhenFeesDoNot()
    ensures var half := BookedService(1, "", 0.5);
      && !EveryFeeConverts([half, half], "VND")
      && OfMajor(Total([half, half]), "VND") == Ok(1)
  {
    var half := BookedService(1, "", 0.5);
    assert Upper("VND") == "VND";
    assert [half, half][..1] == [half] && [half][..0] == [];
    assert Total([half]) == 0.5;
    assert Total([half, half]) == 1.0;
    assert [half, half][0].fee == 0.5;
    assert (0.5 as real).Floor == 0;
    assert ToMinor([half, half][0].fee, "VND").Err?;
  }
}
