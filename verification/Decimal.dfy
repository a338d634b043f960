/** Decimal integers as the standard library prints and reads them. */
module Decimal {
  import opened Basics

  const INT64_MAX: int := 0x7fff_ffff_ffff_ffff
  const INT64_MIN: int := -0x8000_0000_0000_0000

  predicate IsDigit(c: byte) { 48 <= c <= 57 }

  const MINUS: byte := 45
  const PLUS: byte := 43

  function Digit(d: nat): (c: byte)
    requires d < 10
    ensures IsDigit(c)
  {
    48 + d
  }

  function Value(c: byte): (d: nat)
    requires IsDigit(c)
    ensures d < 10
  {
    c - 48
  }

  function FormatNat(n: nat): (s: Text)
    ensures s != [] && forall i | 0 <= i < |s| :: IsDigit(s[i])
  {
    if n < 10 then [Digit(n)] else FormatNat(n / 10) + [Digit(n % 10)]
  }

  function ParseNat(s: Text): Option<nat>
  {
    if s == [] || !IsDigit(s[|s| - 1]) then None
    else if |s| == 1 then Some(Value(s[0]))
    else
      var high := ParseNat(s[..|s| - 1]);
      if high.None? then None else Some(10 * high.value + Value(s[|s| - 1]))
  }

  function FormatInt(n: int): Text
  {
    if n < 0 then [MINUS] + FormatNat(-n) else FormatNat(n)
  }

  /** A signed decimal; a value outside 64 bits is an error. */
  function ParseInt(s: Text): Option<int>
  {
    if s == [] then None
    else
      var negative := s[0] == MINUS;
      var digits := ParseNat(if negative || s[0] == PLUS then s[1..] else s);
      if digits.None? then None
      else
        var n: int := digits.value;
        var n := if negative then 0 - n else n;
        if INT64_MIN <= n <= INT64_MAX then Some(n) else None
  }

  lemma {:induction false} ParseFormatNat(n: nat)
    ensures ParseNat(FormatNat(n)) == Some(n)
  {
    if n < 10 {
    } else {
      ParseFormatNat(n / 10);
      var s := FormatNat(n);
      assert s[..|s| - 1] == FormatNat(n / 10);
    }
  }

  lemma ParseFormatInt(n: int)
    requires INT64_MIN <= n <= INT64_MAX
    ensures ParseInt(FormatInt(n)) == Some(n)
  {
    ParseFormatNat(if n < 0 then -n else n);
    if n < 0 {
      assert FormatInt(n)[1..] == FormatNat(-n);
    } else {
      assert IsDigit(FormatInt(n)[0]);
    }
  }
}
