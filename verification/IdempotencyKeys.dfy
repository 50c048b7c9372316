/** How billing scopes a client's Idempotency-Key to what the client asks for. */
module IdempotencyKeys {

  function Decimal(n: nat): (s: string)
    ensures s != [] && forall i :: 0 <= i < |s| ==> '0' <= s[i] <= '9'
  {
    if n < 10 then [('0' as int + n) as char] else Decimal(n / 10) + [('0' as int + n % 10) as char]
  }

  function DepositKey(appointment: nat, key: string): string {
    "deposit:" + Decimal(appointment) + ":" + key
  }

  function BillKey(bill: nat, key: string): string {
    "bill:" + Decimal(bill) + ":" + key
  }

  lemma {:induction false} DecimalIsInjective(a: nat, b: nat)
    requires Decimal(a) == Decimal(b)
    ensures a == b
  {
    var s, t := Decimal(a), Decimal(b);
    assert (|s| == 1 <==> a < 10) && (|t| == 1 <==> b < 10);
    assert s[|s| - 1] == t[|t| - 1];
    if a >= 10 {
      assert s[..|s| - 1] == Decimal(a / 10) && t[..|t| - 1] == Decimal(b / 10);
      DecimalIsInjective(a / 10, b / 10);
    }
  }

  /** What comes before the first colon, and after it, can be read back. */
  lemma SplitAtColon(head: string, tail: string, head': string, tail': string)
    requires head + ":" + tail == head' + ":" + tail'
    requires ':' !in head && ':' !in head'
    ensures head == head' && tail == tail'
  {
    var s := head + ":" + tail;
    assert s[|head|] == ':' && s[|head'|] == ':';
    assert forall i :: 0 <= i < |head| ==> s[i] == head[i];
    assert forall i :: 0 <= i < |head'| ==> s[i] == head'[i];
    assert |head| == |head'|;
    assert head == s[..|head|] && head' == s[..|head'|];
    assert tail == s[|head| + 1..] && tail' == s[|head'| + 1..];
  }

  /** Keys of different appointments never meet, whatever text the clients send. */
  lemma DepositKeysAreScoped(a: nat, key: string, b: nat, key': string)
    ensures DepositKey(a, key) == DepositKey(b, key') <==> a == b && key == key'
  {
    if DepositKey(a, key) == DepositKey(b, key') {
      var s, t := Decimal(a) + ":" + key, Decimal(b) + ":" + key';
      assert DepositKey(a, key) == "deposit:" + s && DepositKey(b, key') == "deposit:" + t;
      assert s == ("deposit:" + s)[8..] && t == ("deposit:" + t)[8..];
      SplitAtColon(Decimal(a), key, Decimal(b), key');
      DecimalIsInjective(a, b);
    }
  }

  lemma BillKeysAreScoped(a: nat, key: string, b: nat, key': string)
    ensures BillKey(a, key) == BillKey(b, key') <==> a == b && key == key'
  {
    if BillKey(a, key) == BillKey(b, key') {
      var s, t := Decimal(a) + ":" + key, Decimal(b) + ":" + key';
      assert BillKey(a, key) == "bill:" + s && BillKey(b, key') == "bill:" + t;
      assert s == ("bill:" + s)[5..] && t == ("bill:" + t)[5..];
      SplitAtColon(Decimal(a), key, Decimal(b), key');
      DecimalIsInjective(a, b);
    }
  }

  /** Nor do a deposit's key and a bill's. */
  lemma DepositsAndBillsDoNotShareKeys(a: nat, key: string, b: nat, key': string)
    ensures DepositKey(a, key) != BillKey(b, key')
  {
    assert DepositKey(a, key)[0] == 'd' && BillKey(b, key')[0] == 'b';
  }
}
