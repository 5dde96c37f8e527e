/**
 * JavaScript `Date` values, reduced to their time value, and the string
 * rendering that `Date.prototype.toISOString` produces. Calendar formatting is
 * not modelled: the rendering here is the signed decimal time value, which keeps
 * the one property the filter logic relies on, that distinct dates render to
 * distinct strings.
 */
module Dates {

  /** A `Date` object: milliseconds since the epoch. */
  datatype Date = Date(millis: int)

  function DigitChar(d: nat): (c: char)
    requires d < 10
    ensures '0' <= c <= '9'
    ensures c as int - '0' as int == d
  {
    ('0' as int + d) as char
  }

  /** The decimal digits of `n`, most significant first. */
  function Decimal(n: nat): (s: string)
    ensures 1 <= |s|
    ensures forall i :: 0 <= i < |s| ==> '0' <= s[i] <= '9'
    ensures n < 10 <==> |s| == 1
    decreases n
  {
    if n < 10 then [DigitChar(n)] else Decimal(n / 10) + [DigitChar(n % 10)]
  }

  /** The string form a date is saved as. */
  function IsoString(d: Date): (s: string)
    ensures 1 <= |s|
    ensures s[0] == '-' <==> d.millis < 0
  {
    if d.millis < 0 then "-" + Decimal(-d.millis) else Decimal(d.millis)
  }

  lemma {:induction false} DecimalInjective(a: nat, b: nat)
    requires Decimal(a) == Decimal(b)
    ensures a == b
    decreases a
  {
    if a >= 10 && b >= 10 {
      var sa, sb := Decimal(a / 10), Decimal(b / 10);
      assert Decimal(a) == sa + [DigitChar(a % 10)];
      assert Decimal(b) == sb + [DigitChar(b % 10)];
      assert |sa| == |sb|;
      assert sa == Decimal(a)[..|sa|] == Decimal(b)[..|sb|] == sb;
      assert DigitChar(a % 10) == Decimal(a)[|sa|] == DigitChar(b % 10);
      DecimalInjective(a / 10, b / 10);
    }
  }

  /** Distinct dates have distinct saved forms. */
  lemma IsoStringInjective(d1: Date, d2: Date)
    requires IsoString(d1) == IsoString(d2)
    ensures d1 == d2
  {
    if d1.millis < 0 {
      assert IsoString(d1)[1..] == Decimal(-d1.millis);
      assert IsoString(d2)[1..] == Decimal(-d2.millis);
      DecimalInjective(-d1.millis, -d2.millis);
    } else {
      DecimalInjective(d1.millis, d2.millis);
    }
  }
}
