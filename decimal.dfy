/**
 * The textual number encodings that the backend writes into metadata strings:
 * LLVM's utostr_32 (unsigned decimal of a 32-bit value) and itostr (signed
 * decimal), together with parsers that play the part of the host tooling
 * reading the strings back.
 */
module Decimal {
  import opened Options

  /** 2^32: every value handed to utostr_32 is first converted to uint32_t. */
  const Two32: int := 0x1_0000_0000

  predicate IsDigit(c: char) {
    '0' <= c <= '9'
  }

  predicate AllDigits(s: string) {
    forall i :: 0 <= i < |s| ==> IsDigit(s[i])
  }

  function DigitChar(d: nat): (c: char)
    requires d < 10
    ensures IsDigit(c) && c as int - '0' as int == d
  {
    ('0' as int + d) as char
  }

  /** Decimal numeral of n, most significant digit first, without leading zeros. */
  function NatToDecimal(n: nat): string {
    if n < 10 then [DigitChar(n)] else NatToDecimal(n / 10) + [DigitChar(n % 10)]
  }

  /** A numeral is a non-empty string of digits that starts with '0' only when it is "0". */
  lemma {:induction false} NatToDecimalDigits(n: nat)
    ensures |NatToDecimal(n)| > 0 && AllDigits(NatToDecimal(n))
    ensures NatToDecimal(n)[0] == '0' <==> n == 0
  {
    if n >= 10 {
      NatToDecimalDigits(n / 10);
    }
  }

  /** llvm::utostr_32: the value is truncated to 32 bits (two's complement) and printed unsigned. */
  function Utostr32(x: int): string {
    NatToDecimal(x % Two32)
  }

  /** llvm::itostr: signed decimal, a leading '-' for negative values. */
  function Itostr(x: int): string {
    if x < 0 then "-" + NatToDecimal(-x) else NatToDecimal(x)
  }

  /** Value of a string of digits, most significant digit first. */
  function DigitsValue(s: string): nat
    requires AllDigits(s)
  {
    if |s| == 0 then 0 else DigitsValue(s[..|s| - 1]) * 10 + (s[|s| - 1] as int - '0' as int)
  }

  /** Reads an unsigned decimal numeral; anything that is not a non-empty digit string is rejected. */
  function ParseNat(s: string): Option<nat> {
    if |s| > 0 && AllDigits(s) then Some(DigitsValue(s)) else None
  }

  /** Reads a signed decimal numeral as written by Itostr. */
  function ParseInt(s: string): Option<int> {
    if |s| > 0 && s[0] == '-' then
      match ParseNat(s[1..])
      case Some(n) => Some(-(n as int))
      case None => None
    else
      match ParseNat(s)
      case Some(n) => Some(n)
      case None => None
  }

  lemma {:induction false} DigitsValueOfDecimal(n: nat)
    ensures AllDigits(NatToDecimal(n)) && DigitsValue(NatToDecimal(n)) == n
  {
    NatToDecimalDigits(n);
    if n >= 10 {
      var s := NatToDecimal(n);
      assert s[..|s| - 1] == NatToDecimal(n / 10);
      DigitsValueOfDecimal(n / 10);
    }
  }

  /** Reading back an unsigned numeral recovers the number. */
  lemma ParseNatOfDecimal(n: nat)
    ensures ParseNat(NatToDecimal(n)) == Some(n)
  {
    NatToDecimalDigits(n);
    DigitsValueOfDecimal(n);
  }

  /** Distinct numbers give distinct numerals, so metadata strings never confuse two codes. */
  lemma NatToDecimalInjective(a: nat, b: nat)
    ensures NatToDecimal(a) == NatToDecimal(b) ==> a == b
  {
    ParseNatOfDecimal(a);
    ParseNatOfDecimal(b);
  }

  /** utostr_32 round trip: the host reads back the value modulo 2^32, and exactly the value when it fits. */
  lemma ParseUtostr32(x: int)
    ensures ParseNat(Utostr32(x)) == Some(x % Two32)
    ensures 0 <= x < Two32 ==> ParseNat(Utostr32(x)) == Some(x)
  {
    ParseNatOfDecimal(x % Two32);
  }

  /** itostr round trip: every integer, negative ones included, is read back unchanged. */
  lemma ParseItostr(x: int)
    ensures ParseInt(Itostr(x)) == Some(x)
  {
    if x < 0 {
      var s := Itostr(x);
      assert s[1..] == NatToDecimal(-x);
      ParseNatOfDecimal(-x);
    } else {
      ParseNatOfDecimal(x);
    }
  }
}
