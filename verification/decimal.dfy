/**
 * Rust's fixed-width integers and their `Display` (`to_string`): the decimal
 * text used for type lengths (`u64`), `LIMIT` values (`i64`) and the ids that
 * `in_list` turns into number literals (`i32`).
 */
module Decimal {

  type u64 = x: int | 0 <= x < 0x1_0000_0000_0000_0000
  type i64 = x: int | -0x8000_0000_0000_0000 <= x < 0x8000_0000_0000_0000
  type i32 = x: int | -0x8000_0000 <= x < 0x8000_0000

  predicate IsDigit(c: char)
  {
    '0' <= c <= '9'
  }

  predicate AllDigits(s: string)
  {
    forall i :: 0 <= i < |s| ==> IsDigit(s[i])
  }

  function DigitChar(d: nat): (c: char)
    requires d < 10
    ensures IsDigit(c) && c as int - '0' as int == d
  {
    (('0' as int) + d) as char
  }

  /**
   * Decimal text of a natural number: at least one digit, digits only, and no
   * leading zero except for "0" itself.
   */
  function NatToString(n: nat): (r: string)
    ensures |r| >= 1 && AllDigits(r)
    ensures |r| > 1 ==> r[0] != '0'
    ensures (n == 0) <==> (r == "0")
    decreases n
  {
    if n < 10 then [DigitChar(n)] else NatToString(n / 10) + [DigitChar(n % 10)]
  }

  /** Reads a digit string back as a number (the inverse of `NatToString`). */
  function ParseDigits(s: string): nat
    requires AllDigits(s)
  {
    if |s| == 0 then 0
    else ParseDigits(s[..|s| - 1]) * 10 + (s[|s| - 1] as int - '0' as int)
  }

  /** Rust's `Display` for a signed integer: a leading '-' exactly for negatives. */
  function IntToString(n: int): (r: string)
    ensures |r| >= 1
    ensures (n < 0) <==> (r[0] == '-')
    ensures n >= 0 ==> AllDigits(r)
    ensures n < 0 ==> AllDigits(r[1..]) && |r| >= 2
  {
    if n < 0 then "-" + NatToString(-n) else NatToString(n)
  }

  /** Reads text produced by `IntToString` back as the number. */
  function ParseInt(s: string): int
    requires |s| >= 1
    requires s[0] == '-' ==> AllDigits(s[1..])
    requires s[0] != '-' ==> AllDigits(s)
  {
    if s[0] == '-' then -(ParseDigits(s[1..]) as int) else ParseDigits(s)
  }

  lemma {:induction false} ParseNatToString(n: nat)
    ensures ParseDigits(NatToString(n)) == n
    decreases n
  {
    var r := NatToString(n);
    if n >= 10 {
      ParseNatToString(n / 10);
      assert r[..|r| - 1] == NatToString(n / 10);
    }
  }

  /** `IntToString` loses nothing: parsing its output gives the number back. */
  lemma IntRoundTrip(n: int)
    ensures ParseInt(IntToString(n)) == n
  {
    if n < 0 {
      var r := IntToString(n);
      assert r[1..] == NatToString(-n);
      ParseNatToString(-n);
    } else {
      ParseNatToString(n);
    }
  }

  /** Distinct numbers never render to the same text. */
  lemma IntToStringInjective(a: int, b: int)
    requires IntToString(a) == IntToString(b)
    ensures a == b
  {
    IntRoundTrip(a);
    IntRoundTrip(b);
  }

  /** The one-digit numbers the examples use. */
  lemma SmallDigits()
    ensures IntToString(0) == "0" && IntToString(1) == "1" && IntToString(2) == "2"
    ensures IntToString(3) == "3" && IntToString(4) == "4"
  {
  }
}
