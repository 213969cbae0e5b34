/** Bytes, ASCII text and the decimal rendering of integers (`strconv.Itoa`). */
module Text {
  import opened Wrappers

  /** Go's `byte`. */
  type byte = b: int | 0 <= b < 256

  /** Go's `[]byte`: raw file content, HTTP bodies. */
  type Bytes = seq<byte>

  /** `utils.IsEmptyString`, taken as "has no characters". */
  predicate IsEmptyString(s: string) {
    |s| == 0
  }

  /** True of the characters `strconv.Itoa` can emit. */
  predicate IsDecimalChar(c: char) {
    c == '-' || '0' <= c <= '9'
  }

  /** A string every character of which fits in one byte. */
  predicate IsAscii(s: string) {
    forall i | 0 <= i < |s| :: s[i] as int < 128
  }

  /** The bytes of an ASCII string, one byte per character. */
  function AsciiBytes(s: string): (r: Bytes)
    requires IsAscii(s)
    ensures |r| == |s|
    ensures forall i | 0 <= i < |s| :: r[i] == s[i] as int
  {
    seq(|s|, i requires 0 <= i < |s| => s[i] as int as byte)
  }

  function DigitChar(d: nat): (c: char)
    requires d < 10
    ensures '0' <= c <= '9'
  {
    ('0' as int + d) as char
  }

  /** Decimal digits of `n`, most significant first, without leading zeros. */
  function NatDigits(n: nat): (r: string)
    ensures |r| > 0
    ensures forall i | 0 <= i < |r| :: '0' <= r[i] <= '9'
    ensures |r| > 1 ==> r[0] != '0'
  {
    if n < 10 then [DigitChar(n)] else NatDigits(n / 10) + [DigitChar(n % 10)]
  }

  /** `strconv.Itoa`: base-10 rendering, with a leading '-' for negatives. */
  function Itoa(n: int): (r: string)
    ensures |r| > 0
    ensures forall i | 0 <= i < |r| :: IsDecimalChar(r[i])
    ensures IsAscii(r)
    ensures (r[0] == '-') <==> n < 0
  {
    if n < 0 then "-" + NatDigits(-n) else NatDigits(n)
  }

  /** Value of a non-empty run of decimal digits. */
  function DigitsValue(s: string): nat
    requires forall i | 0 <= i < |s| :: '0' <= s[i] <= '9'
  {
    if |s| == 0 then 0
    else DigitsValue(s[..|s| - 1]) * 10 + (s[|s| - 1] as int - '0' as int)
  }

  predicate AllDigits(s: string) {
    |s| > 0 && forall i | 0 <= i < |s| :: '0' <= s[i] <= '9'
  }

  /** Reads back an optionally signed decimal integer; `None` for anything else. */
  function ParseInt(s: string): Option<int> {
    if |s| > 0 && s[0] == '-' then
      if AllDigits(s[1..]) then Some(-(DigitsValue(s[1..]) as int)) else None
    else if AllDigits(s) then Some(DigitsValue(s) as int)
    else None
  }

  lemma {:induction false} DigitsValueOfNatDigits(n: nat)
    ensures DigitsValue(NatDigits(n)) == n
  {
    if n >= 10 {
      var p := NatDigits(n / 10);
      var s := p + [DigitChar(n % 10)];
      assert s[..|s| - 1] == p;
      DigitsValueOfNatDigits(n / 10);
    }
  }

  /** A rendered natural number parses back. */
  lemma ParseNatDigits(m: nat)
    ensures ParseInt(NatDigits(m)) == Some(m)
  {
    var s := NatDigits(m);
    assert AllDigits(s) && s[0] != '-';
    DigitsValueOfNatDigits(m);
  }

  /** A rendered natural number behind a minus sign parses back negated. */
  lemma ParseNegDigits(m: nat)
    ensures ParseInt("-" + NatDigits(m)) == Some(-(m as int))
  {
    var s := "-" + NatDigits(m);
    assert s[1..] == NatDigits(m);
    assert AllDigits(s[1..]);
    DigitsValueOfNatDigits(m);
  }

  /** Decimal rendering loses nothing: parsing it gives the number back. */
  lemma ParseItoa(n: int)
    ensures ParseInt(Itoa(n)) == Some(n)
  {
    if n < 0 {
      ParseNegDigits(-n);
    } else {
      ParseNatDigits(n);
    }
  }

  /** Distinct numbers render differently. */
  lemma ItoaInjective(a: int, b: int)
    requires Itoa(a) == Itoa(b)
    ensures a == b
  {
    ParseItoa(a);
    ParseItoa(b);
  }
}
