/** The idempotency keys presented to suppliers, built from an item id, a supplier name and a round. */
module RequestIds {

  ghost predicate NoColon(s: string) {
    ':' !in s
  }

  function Digit(d: nat): char
    requires d < 10
  {
    (d as char) + '0'
  }

  function Decimal(n: nat): string {
    if n < 10 then [Digit(n)] else Decimal(n / 10) + [Digit(n % 10)]
  }

  // Round 1 carries no suffix; later rounds append their number.
  function RequestId(item: string, supplier: string, round: nat): string {
    if round == 1 then item + ":" + supplier
    else item + ":" + supplier + ":" + Decimal(round)
  }

  lemma BeginsWithItem(item: string, supplier: string, round: nat)
    ensures item + ":" <= RequestId(item, supplier, round)
  {
    var id, head := RequestId(item, supplier, round), item + ":";
    assert id == if round == 1 then head + supplier else head + (supplier + ":" + Decimal(round));
  }

  lemma RequestIdReads(item: string, supplier: string, round: nat)
    requires round >= 1
    ensures if round == 1 then RequestId(item, supplier, round) == item + ":" + supplier
            else exists n: string :: RequestId(item, supplier, round) == item + ":" + supplier + ":" + n && DecimalValue(n) == round
  {
    DecimalReadsBack(round);
    if round > 1 {
      assert RequestId(item, supplier, round) == item + ":" + supplier + ":" + Decimal(round);
    }
  }

  function DecimalValue(s: string): int {
    if s == [] then 0 else DecimalValue(s[..|s| - 1]) * 10 + (s[|s| - 1] as int - '0' as int)
  }

  lemma {:induction false} DecimalReadsBack(n: nat)
    ensures DecimalValue(Decimal(n)) == n
  {
    if n < 10 {
      assert Decimal(n)[..0] == [];
    } else {
      DecimalReadsBack(n / 10);
      var s := Decimal(n);
      assert s[..|s| - 1] == Decimal(n / 10);
    }
  }

  lemma SplitAtFirstColon(a: string, x: string, b: string, y: string)
    requires NoColon(a) && NoColon(b)
    requires a + ":" + x == b + ":" + y
    ensures a == b && x == y
  {
    var s := a + ":" + x;
    assert s[|a|] == ':' && s[|b|] == ':';
    assert forall i :: 0 <= i < |a| ==> s[i] == a[i];
    assert forall i :: 0 <= i < |b| ==> s[i] == b[i];
    assert |a| == |b|;
    assert a == s[..|a|] == b;
    assert x == s[|a| + 1..] == y;
  }

  // What follows the item id.
  function SupplierPart(supplier: string, round: nat): string {
    if round == 1 then supplier else supplier + ":" + Decimal(round)
  }

  lemma OnlyLaterRoundsCarryASuffix(supplier: string, round: nat)
    requires NoColon(supplier)
    ensures NoColon(SupplierPart(supplier, round)) <==> round == 1
  {
    if round != 1 {
      assert SupplierPart(supplier, round)[|supplier|] == ':';
    }
  }

  // No two (item, supplier, round) triples ever share a request id.
  lemma RequestIdsInjective(i1: string, s1: string, r1: nat, i2: string, s2: string, r2: nat)
    requires NoColon(i1) && NoColon(s1) && NoColon(i2) && NoColon(s2)
    requires RequestId(i1, s1, r1) == RequestId(i2, s2, r2)
    ensures i1 == i2 && s1 == s2 && r1 == r2
  {
    assert RequestId(i1, s1, r1) == i1 + ":" + SupplierPart(s1, r1);
    assert RequestId(i2, s2, r2) == i2 + ":" + SupplierPart(s2, r2);
    SplitAtFirstColon(i1, SupplierPart(s1, r1), i2, SupplierPart(s2, r2));
    OnlyLaterRoundsCarryASuffix(s1, r1);
    OnlyLaterRoundsCarryASuffix(s2, r2);
    if r1 != 1 {
      SplitAtFirstColon(s1, Decimal(r1), s2, Decimal(r2));
      DecimalReadsBack(r1);
      DecimalReadsBack(r2);
    }
  }
}
