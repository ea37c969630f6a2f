/** The "%d:%s" key that makes (client, external id) pairs unique. */
module IdempotencyKey {
  import opened Results

  function Digit(n: nat): char
    requires n < 10
  {
    '0' + n as char
  }

  /** %d of a non-negative number. */
  function Decimal(n: nat): string {
    if n < 10 then [Digit(n)] else Decimal(n / 10) + [Digit(n % 10)]
  }

  function Value(digits: string): int {
    if digits == [] then 0
    else 10 * Value(digits[..|digits| - 1]) + (digits[|digits| - 1] as int - '0' as int)
  }

  function Key(clientId: nat, externalId: string): Option<string> {
    if clientId == 0 || externalId == "" then None else Some(Decimal(clientId) + ":" + externalId)
  }

  lemma {:induction false} DecimalReadsBack(n: nat)
    ensures Value(Decimal(n)) == n
    ensures forall i :: 0 <= i < |Decimal(n)| ==> Decimal(n)[i] != ':'
  {
    if n < 10 {
      assert [Digit(n)][..0] == [];
    } else {
      DecimalReadsBack(n / 10);
      assert Decimal(n)[..|Decimal(n)| - 1] == Decimal(n / 10);
    }
  }

  /** Two texts without a colon are equal when they agree up to the first colon of one string. */
  lemma PrefixesAgree(a: string, b: string, x: string, y: string)
    requires forall i :: 0 <= i < |a| ==> a[i] != ':'
    requires forall i :: 0 <= i < |b| ==> b[i] != ':'
    requires a + ":" + x == b + ":" + y
    ensures a == b && x == y
  {
    var left, right := a + ":" + x, b + ":" + y;
    assert left[|a|] == ':' && right[|b|] == ':';
    assert |a| == |b|;
    assert a == left[..|a|] && b == right[..|b|];
    assert x == left[|a| + 1..] && y == right[|b| + 1..];
  }

  /** Distinct (client, external id) pairs never share a key, whatever characters the external id holds. */
  lemma KeyInjective(c: nat, x: string, d: nat, y: string)
    requires Key(c, x).Some? && Key(c, x) == Key(d, y)
    ensures c == d && x == y
  {
    DecimalReadsBack(c);
    DecimalReadsBack(d);
    PrefixesAgree(Decimal(c), Decimal(d), x, y);
  }
}
