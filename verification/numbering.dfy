/** Document numbers: a prefix, a dash and a running count written in decimal and left-padded
    with zeros to at least four digits (`String(n).padStart(4, "0")`). */
module Numbering {

  /** Minimum number of digits in the numeric part. */
  const Width: nat := 4

  predicate IsDigit(c: char)
  {
    '0' <= c <= '9'
  }

  predicate AllDigits(s: string)
  {
    forall i :: 0 <= i < |s| ==> IsDigit(s[i])
  }

  function DigitChar(d: nat): (c: char)
    requires d < 10
    ensures IsDigit(c)
  {
    "0123456789"[d]
  }

  function DigitValue(c: char): int
  {
    c as int - '0' as int
  }

  /** `String(n)` for a natural number: its decimal digits, without leading zeros. */
  function Decimal(n: nat): (s: string)
    ensures 1 <= |s|
    ensures AllDigits(s)
    ensures |s| > 1 ==> s[0] != '0'
  {
    if n < 10 then [DigitChar(n)] else Decimal(n / 10) + [DigitChar(n % 10)]
  }

  /** The number a string of decimal digits denotes (leading zeros allowed). */
  function DigitsValue(s: string): int
  {
    if |s| == 0 then 0 else DigitsValue(s[..|s| - 1]) * 10 + DigitValue(s[|s| - 1])
  }

  /** Reading back the decimal form of `n` gives `n`. */
  lemma {:induction false} DecimalRoundTrip(n: nat)
    ensures DigitsValue(Decimal(n)) == n
  {
    if n >= 10 {
      DecimalRoundTrip(n / 10);
      var s := Decimal(n / 10) + [DigitChar(n % 10)];
      assert s[..|s| - 1] == Decimal(n / 10);
    }
  }

  /** `s.padStart(width, fill)`: `fill` repeated in front of `s` until it is `width` long; a string
      already that long is returned whole, never cut. */
  function PadStart(s: string, width: nat, fill: char): (r: string)
    ensures |r| == if |s| >= width then |s| else width
    ensures r[|r| - |s|..] == s
    ensures forall i :: 0 <= i < |r| - |s| ==> r[i] == fill
  {
    if |s| >= width then s else seq(width - |s|, _ => fill) + s
  }

  /** Leading zeros do not change the value of a digit string. */
  lemma {:induction false} LeadingZeros(z: string, s: string)
    requires forall i :: 0 <= i < |z| ==> z[i] == '0'
    ensures DigitsValue(z + s) == DigitsValue(s)
  {
    if |s| == 0 {
      assert z + s == z;
      AllZeros(z);
    } else {
      LeadingZeros(z, s[..|s| - 1]);
      assert (z + s)[..|z + s| - 1] == z + s[..|s| - 1];
    }
  }

  lemma {:induction false} AllZeros(z: string)
    requires forall i :: 0 <= i < |z| ==> z[i] == '0'
    ensures DigitsValue(z) == 0
  {
    if |z| > 0 {
      AllZeros(z[..|z| - 1]);
    }
  }

  /** The numeric part: `n` in decimal, zero-padded to at least `Width` digits. */
  function Padded(n: nat): (s: string)
    ensures |s| == if |Decimal(n)| >= Width then |Decimal(n)| else Width
    ensures s[|s| - |Decimal(n)|..] == Decimal(n)
    ensures AllDigits(s)
    ensures DigitsValue(s) == n
  {
    var d := Decimal(n);
    var s := PadStart(d, Width, '0');
    var z := s[..|s| - |d|];
    assert s == z + d;
    LeadingZeros(z, d);
    DecimalRoundTrip(n);
    s
  }

  /** A number with at least `Width` digits is written without leading zeros. */
  lemma PaddedWide(n: nat)
    requires |Decimal(n)| >= Width
    ensures Padded(n) == Decimal(n)
  {
    var s := Padded(n);
    assert s == s[|s| - |Decimal(n)|..];
  }

  /** `prefix-NNNN` where NNNN is `count + 1`, the number following `count` existing documents. */
  function DocumentNumber(prefix: string, count: nat): (r: string)
    ensures |r| >= |prefix| + 1 + Width
    ensures r[..|prefix|] == prefix && r[|prefix|] == '-'
    ensures r[|prefix| + 1..] == Padded(count + 1)
    ensures AllDigits(r[|prefix| + 1..])
    ensures DigitsValue(r[|prefix| + 1..]) == count + 1
  {
    var r := prefix + "-" + Padded(count + 1);
    assert r[|prefix| + 1..] == Padded(count + 1);
    r
  }

  /** Different counts give different numbers under the same prefix. */
  lemma DocumentNumberInjective(prefix: string, c1: nat, c2: nat)
    requires DocumentNumber(prefix, c1) == DocumentNumber(prefix, c2)
    ensures c1 == c2
  {
  }
}
