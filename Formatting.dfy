/**
 * The string work of the ingestion endpoint: `int.ToString()` on the year,
 * the zero-padded month, the `MM-YYYY` token that file names are matched
 * against, and the ASCII encoding of the response body.
 */
module Formatting {
  import opened Entities

  predicate IsDigit(c: char) {
    '0' <= c <= '9'
  }

  predicate IsDecimal(s: string) {
    forall k :: 0 <= k < |s| ==> IsDigit(s[k])
  }

  function DigitChar(d: nat): (c: char)
    requires d < 10
    ensures IsDigit(c) && c as int - '0' as int == d
  {
    ('0' as int + d) as char
  }

  function DigitValue(c: char): (d: nat)
    requires IsDigit(c)
    ensures d < 10 && DigitChar(d) == c
  {
    c as int - '0' as int
  }

  function Pow10(k: nat): (p: nat)
    ensures p >= 1
  {
    if k == 0 then 1 else 10 * Pow10(k - 1)
  }

  /** `n.ToString()` for a non-negative `n`: its decimal digits, most significant first. */
  function NatToDecimal(n: nat): (s: string)
    ensures 1 <= |s| && IsDecimal(s)
    ensures s[0] == '0' ==> n == 0
    decreases n
  {
    if n < 10 then [DigitChar(n)] else NatToDecimal(n / 10) + [DigitChar(n % 10)]
  }

  /** The value of a string of decimal digits (the empty string reads as 0). */
  function ParseDecimal(s: string): nat
    requires IsDecimal(s)
  {
    if s == [] then 0 else ParseDecimal(s[..|s| - 1]) * 10 + DigitValue(s[|s| - 1])
  }

  /** `n.ToString()` for any `int`; the sign only appears for negative `n`. */
  function IntToString(n: int): string {
    if n < 0 then "-" + NatToDecimal(-n) else NatToDecimal(n)
  }

  /** The month as the endpoint formats it: `0` in front of 1 to 9, the plain number otherwise. */
  function MonthString(month: int): string {
    if 1 <= month <= 9 then "0" + IntToString(month) else IntToString(month)
  }

  /** Two-digit zero padding as the upstream file names use it for months and days. */
  function TwoDigits(n: nat): string
    requires n < 100
  {
    [DigitChar(n / 10), DigitChar(n % 10)]
  }

  /** The `MM-YYYY` substring that a matching report's name carries at offset 3. */
  function DateToken(year: int, month: int): string {
    MonthString(month) + "-" + IntToString(year)
  }

  /** Reading the decimal text of `n` back gives `n`. */
  lemma {:induction false} DecimalRoundTrip(n: nat)
    ensures ParseDecimal(NatToDecimal(n)) == n
    decreases n
  {
    var s := NatToDecimal(n);
    if n < 10 {
      assert s[..|s| - 1] == [];
    } else {
      DecimalRoundTrip(n / 10);
      assert s[..|s| - 1] == NatToDecimal(n / 10);
    }
  }

  /** The decimal text of `n` fits in `k` characters exactly when `n < 10^k`. */
  lemma {:induction false} DecimalLength(n: nat, k: nat)
    requires 1 <= k
    ensures |NatToDecimal(n)| <= k <==> n < Pow10(k)
    decreases n
  {
    if n < 10 {
      assert Pow10(k) == 10 * Pow10(k - 1);
    } else if k == 1 {
      assert |NatToDecimal(n)| >= 2;
    } else {
      DecimalLength(n / 10, k - 1);
      assert Pow10(k) == 10 * Pow10(k - 1);
      assert n / 10 < Pow10(k - 1) <==> n < 10 * Pow10(k - 1);
    }
  }

  /** Two-digit text is read back as the number it was made from. */
  lemma TwoDigitsRoundTrip(n: nat)
    requires n < 100
    ensures ParseDecimal(TwoDigits(n)) == n
  {
    var s := TwoDigits(n);
    assert s[..1][..0] == [];
    assert s[..|s| - 1] == s[..1];
    assert ParseDecimal(s[..1]) == n / 10;
  }

  /**
   * The month text of any value from 1 to 99 (a month, or a day of the
   * month) is exactly two digits, tens then units.
   */
  lemma MonthStringIsTwoDigits(month: int)
    requires 1 <= month <= 99
    ensures MonthString(month) == TwoDigits(month)
    ensures ParseDecimal(MonthString(month)) == month
  {
    if month >= 10 {
      assert NatToDecimal(month / 10) == [DigitChar(month / 10)];
    }
    TwoDigitsRoundTrip(month);
  }

  /**
   * For a month of the year and a non-negative year the token is the two
   * month digits, a dash, and the year's digits, so both are read back from it.
   */
  lemma DateTokenParses(year: int, month: int)
    requires 0 <= year && 1 <= month <= 12
    ensures var t := DateToken(year, month);
      |t| >= 4 && t[2] == '-' && IsDecimal(t[..2]) && IsDecimal(t[3..]) &&
      t[..2] == TwoDigits(month) && t[2..] == "-" + NatToDecimal(year) &&
      ParseDecimal(t[..2]) == month && ParseDecimal(t[3..]) == year
  {
    var t := DateToken(year, month);
    MonthStringIsTwoDigits(month);
    DecimalRoundTrip(year);
    assert t[..2] == MonthString(month);
    assert t[2..] == "-" + NatToDecimal(year);
  }

  /** Distinct requests give distinct tokens. */
  lemma DateTokenInjective(year1: int, month1: int, year2: int, month2: int)
    requires 0 <= year1 && 1 <= month1 <= 12
    requires 0 <= year2 && 1 <= month2 <= 12
    requires DateToken(year1, month1) == DateToken(year2, month2)
    ensures year1 == year2 && month1 == month2
  {
    DateTokenParses(year1, month1);
    DateTokenParses(year2, month2);
  }

  /** The token is seven characters long exactly when the year has four digits. */
  lemma DateTokenLength(year: int, month: int)
    requires 0 <= year && 1 <= month <= 12
    ensures |DateToken(year, month)| == 7 <==> 1000 <= year <= 9999
  {
    MonthStringIsTwoDigits(month);
    DecimalLength(year, 4);
    DecimalLength(year, 3);
  }

  /** `Encoding.ASCII` on one character: characters above U+007F become `?`. */
  function AsciiByte(c: char): (b: byte)
    ensures b < 128
  {
    if c as int < 128 then c as int as byte else '?' as int as byte
  }

  /** ASCII decoding of one byte: bytes above 0x7F become `?`. */
  function AsciiChar(b: byte): char {
    if b < 128 then b as int as char else '?'
  }

  predicate IsAscii(s: string) {
    forall k :: 0 <= k < |s| ==> s[k] as int < 128
  }

  /** `Encoding.ASCII.GetBytes(s)`: one byte per character. */
  function AsciiBytes(s: string): (b: seq<byte>)
    ensures |b| == |s|
  {
    seq(|s|, k requires 0 <= k < |s| => AsciiByte(s[k]))
  }

  function AsciiString(b: seq<byte>): (s: string)
    ensures |s| == |b|
  {
    seq(|b|, k requires 0 <= k < |b| => AsciiChar(b[k]))
  }

  /**
   * Encoding never fails and changes exactly the non-ASCII characters, so
   * ASCII text comes back unchanged and any other text comes back with `?`
   * in place of each non-ASCII character.
   */
  lemma AsciiRoundTrip(s: string)
    ensures var r := AsciiString(AsciiBytes(s));
      |r| == |s| &&
      forall k :: 0 <= k < |s| ==> r[k] == if s[k] as int < 128 then s[k] else '?'
    ensures IsAscii(s) ==> AsciiString(AsciiBytes(s)) == s
  {
  }
}
