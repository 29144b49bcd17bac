/** Default zone names: `"Line N"` or `"Zone N"`, where N is the decimal
    rendering of the per-session counter. */
module ZoneNames {

  predicate IsDigit(c: char)
  {
    '0' <= c <= '9'
  }

  predicate AllDigits(s: string)
  {
    forall i :: 0 <= i < |s| ==> IsDigit(s[i])
  }

  function DigitChar(d: nat): (c: char)
    requires d < 10
    ensures IsDigit(c)
  {
    ('0' as int + d) as char
  }

  function DigitValue(c: char): (d: nat)
    requires IsDigit(c)
    ensures d < 10 && DigitChar(d) == c
  {
    (c as int - '0' as int) as nat
  }

  /** The decimal rendering of a natural number, as a template literal
      renders an integer counter: no sign, no leading zeros. */
  function Decimal(n: nat): (s: string)
    ensures |s| >= 1 && AllDigits(s)
    ensures n < 10 <==> |s| == 1
    decreases n
  {
    if n < 10 then [DigitChar(n)] else Decimal(n / 10) + [DigitChar(n % 10)]
  }

  /** Reads a string of decimal digits as a number. */
  function DecimalValue(s: string): nat
    requires AllDigits(s)
  {
    if s == [] then 0 else DecimalValue(s[..|s| - 1]) * 10 + DigitValue(s[|s| - 1])
  }

  /** Reading back a rendered number gives that number. */
  lemma {:induction false} DecimalRoundTrip(n: nat)
    ensures DecimalValue(Decimal(n)) == n
    decreases n
  {
    if n >= 10 {
      var s := Decimal(n / 10);
      DecimalRoundTrip(n / 10);
      assert (s + [DigitChar(n % 10)])[..|s|] == s;
    }
  }

  /** Different numbers render differently. */
  lemma DecimalInjective(a: nat, b: nat)
    requires Decimal(a) == Decimal(b)
    ensures a == b
  {
    DecimalRoundTrip(a);
    DecimalRoundTrip(b);
  }

  function NamePrefix(lineMode: bool): string
  {
    if lineMode then "Line " else "Zone "
  }

  /** getNewZoneName's value for counter `n`: `"Line N"` in line mode,
      `"Zone N"` in polygon mode. */
  function ZoneName(lineMode: bool, n: nat): (s: string)
    ensures |s| > 5 && s[..5] == NamePrefix(lineMode) && s[5..] == Decimal(n)
  {
    NamePrefix(lineMode) + Decimal(n)
  }

  /** A default name determines both the mode and the counter value it was
      made from, so names made from different counter values never clash. */
  lemma ZoneNameInjective(m1: bool, a: nat, m2: bool, b: nat)
    requires ZoneName(m1, a) == ZoneName(m2, b)
    ensures m1 == m2 && a == b
  {
    var s := ZoneName(m1, a);
    assert s[0] == NamePrefix(m1)[0] && s[0] == NamePrefix(m2)[0];
    DecimalInjective(a, b);
  }
}
