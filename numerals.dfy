/**
 * Digit strings: the decimal reading of an alt-code buffer (Python's `int(...)`)
 * and the upper-case hexadecimal rendering of a code point (Python's `'%0.2X' % n`).
 */
module Numerals {

  predicate IsDigit(c: char) { '0' <= c <= '9' }

  predicate IsDigitString(s: string) { forall i :: 0 <= i < |s| ==> IsDigit(s[i]) }

  function DigitValue(c: char): (d: nat)
    requires IsDigit(c)
    ensures d < 10
  {
    c as int - '0' as int
  }

  function DigitChar(d: nat): (c: char)
    requires d < 10
    ensures IsDigit(c) && DigitValue(c) == d
  {
    (d + '0' as int) as char
  }

  /** The value of a decimal digit string, read most significant digit first. */
  function DecValue(s: string): (r: nat)
    requires IsDigitString(s)
    ensures r == 0 <==> forall i :: 0 <= i < |s| ==> s[i] == '0'
    decreases |s|
  {
    if s == [] then 0
    else
      var init := s[..|s| - 1];
      assert forall i :: 0 <= i < |init| ==> init[i] == s[i];
      DecValue(init) * 10 + DigitValue(s[|s| - 1])
  }

  /** The canonical decimal form of n (Python's `str(n)`): no leading zero except for 0 itself. */
  function DecimalString(n: nat): (r: string)
    ensures |r| > 0 && IsDigitString(r)
    ensures DecValue(r) == n
    ensures r[0] == '0' <==> n == 0
    ensures n == 0 ==> r == "0"
    ensures n < 10 ==> |r| == 1
    ensures n < 100 ==> |r| <= 2
    ensures n < 1000 ==> |r| <= 3
  {
    if n < 10 then [DigitChar(n)]
    else
      var prefix := DecimalString(n / 10);
      var r := prefix + [DigitChar(n % 10)];
      assert r[..|r| - 1] == prefix;
      r
  }

  /** A leading zero does not change the decimal value of a digit string. */
  lemma {:induction false} DecValueIgnoresLeadingZero(s: string)
    requires IsDigitString(s)
    ensures IsDigitString("0" + s) && DecValue("0" + s) == DecValue(s)
  {
    if s == [] {
      assert ("0" + s)[..0] == [];
    } else {
      var t := s[..|s| - 1];
      assert ("0" + s)[..|"0" + s| - 1] == "0" + t;
      DecValueIgnoresLeadingZero(t);
    }
  }

  function Zeros(k: nat): (z: string)
    ensures |z| == k && IsDigitString(z)
  {
    if k == 0 then [] else "0" + Zeros(k - 1)
  }

  /** Any number of leading zeros leaves the decimal value unchanged. */
  lemma {:induction false} DecValueIgnoresLeadingZeros(k: nat, s: string)
    requires IsDigitString(s)
    ensures IsDigitString(Zeros(k) + s) && DecValue(Zeros(k) + s) == DecValue(s)
  {
    if k == 0 {
      assert Zeros(k) + s == s;
    } else {
      DecValueIgnoresLeadingZeros(k - 1, s);
      assert Zeros(k) + s == "0" + (Zeros(k - 1) + s);
      DecValueIgnoresLeadingZero(Zeros(k - 1) + s);
    }
  }

  predicate IsUpperHexDigit(c: char) { '0' <= c <= '9' || 'A' <= c <= 'F' }

  predicate IsUpperHexString(s: string) { forall i :: 0 <= i < |s| ==> IsUpperHexDigit(s[i]) }

  function HexDigitValue(c: char): (d: nat)
    requires IsUpperHexDigit(c)
    ensures d < 16
  {
    if c <= '9' then c as int - '0' as int else c as int - 'A' as int + 10
  }

  function HexDigitChar(d: nat): (c: char)
    requires d < 16
    ensures IsUpperHexDigit(c) && HexDigitValue(c) == d
  {
    if d < 10 then (d + '0' as int) as char else (d - 10 + 'A' as int) as char
  }

  /** The value of an upper-case hexadecimal string, read most significant digit first. */
  function ParseHex(s: string): nat
    requires IsUpperHexString(s)
    decreases |s|
  {
    if s == [] then 0 else ParseHex(s[..|s| - 1]) * 16 + HexDigitValue(s[|s| - 1])
  }

  /** The hexadecimal digits of n without padding; "0" for zero. */
  function HexDigits(n: nat): (r: string)
    ensures |r| > 0 && IsUpperHexString(r)
    ensures ParseHex(r) == n
    ensures r[0] == '0' <==> n == 0
    ensures n < 0x100 ==> |r| <= 2
    ensures n < 0x1000 ==> |r| <= 3
    ensures n < 0x10000 ==> |r| <= 4
  {
    if n < 16 then [HexDigitChar(n)]
    else
      var prefix := HexDigits(n / 16);
      var r := prefix + [HexDigitChar(n % 16)];
      assert r[..|r| - 1] == prefix;
      r
  }

  /**
   * Python's `('%0.2X' % n).upper()`: upper-case hexadecimal, zero-padded to
   * at least two digits and never padded beyond that.
   */
  function HexUpper2(n: nat): (r: string)
    ensures |r| >= 2 && IsUpperHexString(r)
    ensures ParseHex(r) == n
    ensures |r| > 2 ==> r[0] != '0'
    ensures n < 0x10000 ==> |r| <= 4
  {
    if n < 16 then
      var r := "0" + HexDigits(n);
      assert r[..1] == "0";
      r
    else HexDigits(n)
  }
}
