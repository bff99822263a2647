/**
  Decimal text of integers, as Rust's `Display` writes an `i64`, a `u64`
  or an id newtype (`format!("{}", n)`), with the parser that inverts it.
  The entity databases build names as `"{template}-{id}"`; the suffix
  lemma below is what makes such names unique when the ids are.
*/
module Decimal {

  predicate IsDigit(c: char) {
    '0' <= c <= '9'
  }

  predicate AllDigits(s: string) {
    forall i :: 0 <= i < |s| ==> IsDigit(s[i])
  }

  function DigitChar(d: nat): (c: char)
    requires d < 10
    ensures IsDigit(c) && c as int - '0' as int == d
  {
    ['0', '1', '2', '3', '4', '5', '6', '7', '8', '9'][d]
  }

  /** The decimal text of a natural number, most significant digit first, no leading zeros. */
  function NatText(n: nat): (s: string)
    ensures 0 < |s| && AllDigits(s)
    ensures |s| > 1 ==> s[0] != '0'
    decreases n
  {
    if n < 10 then [DigitChar(n)] else NatText(n / 10) + [DigitChar(n % 10)]
  }

  /** The decimal text of a signed integer: a leading '-' for negatives. */
  function IntText(i: int): (s: string)
    ensures 0 < |s|
    ensures i < 0 <==> s[0] == '-'
  {
    if i < 0 then "-" + NatText(-i) else NatText(i)
  }

  /** Reads a string of digits back as a number. */
  function ParseNat(s: string): nat
    requires AllDigits(s)
  {
    if s == [] then 0 else ParseNat(s[..|s| - 1]) * 10 + (s[|s| - 1] as int - '0' as int)
  }

  /** Reads the text `IntText` produces back as a signed integer. */
  function ParseInt(s: string): int
    requires 0 < |s|
    requires s[0] == '-' ==> AllDigits(s[1..])
    requires s[0] != '-' ==> AllDigits(s)
  {
    if s[0] == '-' then 0 - ParseNat(s[1..]) else ParseNat(s) as int
  }

  lemma {:induction false} ParseNatText(n: nat)
    ensures ParseNat(NatText(n)) == n
    decreases n
  {
    if n >= 10 {
      var s := NatText(n);
      assert s == NatText(n / 10) + [DigitChar(n % 10)];
      assert s[..|s| - 1] == NatText(n / 10);
      ParseNatText(n / 10);
    }
  }

  lemma ParseIntText(i: int)
    ensures ParseInt(IntText(i)) == i
  {
    if i < 0 {
      var d := NatText(-i);
      assert IntText(i) == "-" + d;
      assert ("-" + d)[1..] == d;
      ParseNatText(-i);
    } else {
      ParseNatText(i);
    }
  }

  lemma NatTextInjective(a: nat, b: nat)
    requires NatText(a) == NatText(b)
    ensures a == b
  {
    ParseNatText(a);
    ParseNatText(b);
  }

  lemma IntTextInjective(a: int, b: int)
    requires IntText(a) == IntText(b)
    ensures a == b
  {
    ParseIntText(a);
    ParseIntText(b);
  }

  /** `prefix + "-" + NatText(id)`: how both databases derive a name from an id. */
  function Suffixed(prefix: string, id: nat): string {
    prefix + "-" + NatText(id)
  }

  /** In a suffixed name the dash sits right after the prefix and only digits follow it. */
  lemma SuffixedShape(a: string, i: nat)
    ensures Suffixed(a, i)[|a|] == '-'
    ensures forall k :: |a| < k < |Suffixed(a, i)| ==> IsDigit(Suffixed(a, i)[k])
  {
    var d := NatText(i);
    assert Suffixed(a, i) == a + "-" + d;
    forall k | |a| < k < |Suffixed(a, i)|
      ensures IsDigit(Suffixed(a, i)[k])
    {
      assert Suffixed(a, i)[k] == d[k - |a| - 1];
    }
  }

  /**
    The id is recoverable from a suffixed name whatever the prefix holds
    (dashes and digits included), because decimal text has no '-'.
  */
  lemma SuffixedInjective(a: string, i: nat, b: string, j: nat)
    requires Suffixed(a, i) == Suffixed(b, j)
    ensures i == j && a == b
  {
    var l, r := Suffixed(a, i), Suffixed(b, j);
    var di, dj := NatText(i), NatText(j);
    SuffixedShape(a, i);
    SuffixedShape(b, j);
    if |a| < |b| {
      assert false;
    } else if |b| < |a| {
      assert false;
    }
    assert di == l[|a| + 1..];
    assert dj == r[|b| + 1..];
    NatTextInjective(i, j);
    assert a == l[..|a|] && b == r[..|b|];
  }
}
