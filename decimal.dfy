/**
 * Decimal text of C `int` values, as `snprintf` writes them for `%d`
 * (CameraDevice.cpp builds its option strings and the buffer-source
 * argument string this way), together with a parser that reads them back.
 */
module Decimal {
  import opened Optional

  /** The range of a C `int` on every platform the camera server targets. */
  type Int32 = x: int | -0x8000_0000 <= x < 0x8000_0000

  predicate IsDigit(c: char) {
    '0' <= c <= '9'
  }

  predicate AllDigits(s: string) {
    forall i :: 0 <= i < |s| ==> IsDigit(s[i])
  }

  function DigitValue(c: char): (d: nat)
    requires IsDigit(c)
    ensures d < 10
  {
    c as int - '0' as int
  }

  function DigitChar(d: nat): (c: char)
    requires d < 10
    ensures IsDigit(c) && DigitValue(c) == d
  {
    ('0' as int + d) as char
  }

  /** `%d` of a non-negative value: at least one digit, no leading zero. */
  function Natural(n: nat): (s: string)
    ensures |s| >= 1 && AllDigits(s)
    ensures s[0] == '0' ==> n == 0
    decreases n
  {
    if n < 10 then [DigitChar(n)] else Natural(n / 10) + [DigitChar(n % 10)]
  }

  /** `%d` of any value: a minus sign before the magnitude of a negative one. */
  function Signed(n: int): (s: string)
    ensures |s| >= 1
    ensures s[0] == '-' <==> n < 0
    ensures forall i :: 0 <= i < |s| ==> IsDigit(s[i]) || (i == 0 && s[i] == '-')
  {
    if n < 0 then "-" + Natural(-n) else Natural(n)
  }

  function ParseNatural(s: string): nat
    requires |s| >= 1 && AllDigits(s)
    decreases |s|
  {
    if |s| == 1 then DigitValue(s[0])
    else ParseNatural(s[..|s| - 1]) * 10 + DigitValue(s[|s| - 1])
  }

  /** Reads an optional minus sign followed by one or more digits. */
  function ParseSigned(s: string): Option<int> {
    if |s| >= 2 && s[0] == '-' && AllDigits(s[1..]) then Some(0 - ParseNatural(s[1..]))
    else if |s| >= 1 && AllDigits(s) then Some(ParseNatural(s))
    else None
  }

  lemma {:induction false} NaturalRoundTrip(n: nat)
    ensures ParseNatural(Natural(n)) == n
  {
    if n >= 10 {
      var s := Natural(n / 10);
      var t := s + [DigitChar(n % 10)];
      assert t == Natural(n);
      assert t[..|t| - 1] == s;
      NaturalRoundTrip(n / 10);
    }
  }

  /** Every value `%d` writes is read back unchanged. */
  lemma SignedRoundTrip(n: int)
    ensures ParseSigned(Signed(n)) == Some(n)
  {
    if n < 0 {
      var s := Signed(n);
      assert s[1..] == Natural(-n);
      NaturalRoundTrip(-n);
    } else {
      NaturalRoundTrip(n);
    }
  }

  /** Distinct values have distinct decimal text. */
  lemma SignedInjective(a: int, b: int)
    requires Signed(a) == Signed(b)
    ensures a == b
  {
    SignedRoundTrip(a);
    SignedRoundTrip(b);
  }

  function Pow10(k: nat): (p: nat)
    ensures p >= 1
  {
    if k == 0 then 1 else 10 * Pow10(k - 1)
  }

  lemma {:induction false} NaturalLength(n: nat, k: nat)
    requires k >= 1 && n < Pow10(k)
    ensures |Natural(n)| <= k
  {
    if n >= 10 {
      assert k >= 2;
      assert n / 10 < Pow10(k - 1);
      NaturalLength(n / 10, k - 1);
    }
  }

  /** A C `int` never takes more than eleven characters: a sign and ten digits. */
  lemma Int32Length(n: Int32)
    ensures |Signed(n)| <= 11
  {
    assert Pow10(10) == 10_000_000_000;
    if n < 0 {
      NaturalLength(-(n as int), 10);
    } else {
      NaturalLength(n, 10);
    }
  }
}
