/**
 * Calendar dates as `YYYY-MM-DD` strings: the date part of `Date.prototype.toISOString`
 * and the date-only form that `new Date(string)` accepts (the form an HTML date
 * input produces).
 */
module IsoDate {
  import opened Calendar
  import opened Outcomes

  predicate IsDigit(c: char) {
    '0' <= c <= '9'
  }

  predicate AllDigits(s: string) {
    forall i :: 0 <= i < |s| ==> IsDigit(s[i])
  }

  function DigitChar(n: int): (c: char)
    requires 0 <= n < 10
    ensures IsDigit(c)
  {
    (48 + n) as char
  }

  function DigitValue(c: char): (n: int)
    requires IsDigit(c)
    ensures 0 <= n < 10
  {
    c as int - 48
  }

  function Pow10(k: nat): (p: nat)
    ensures p >= 1
  {
    if k == 0 then 1 else 10 * Pow10(k - 1)
  }

  /** The decimal digits of n, padded on the left with zeros to at least `width` characters. */
  function Decimal(n: nat, width: nat): (s: string)
    ensures |s| >= 1 && AllDigits(s)
    decreases n + width
  {
    if n < 10 && width <= 1 then [DigitChar(n)]
    else Decimal(n / 10, if width == 0 then 0 else width - 1) + [DigitChar(n % 10)]
  }

  /** The number a string of decimal digits spells. */
  function ValueOf(s: string): nat
    requires AllDigits(s)
  {
    if s == [] then 0 else 10 * ValueOf(s[..|s| - 1]) + DigitValue(s[|s| - 1])
  }

  lemma {:induction false} DecimalLength(n: nat, width: nat)
    requires 1 <= width && n < Pow10(width)
    ensures |Decimal(n, width)| == width
    decreases width
  {
    if !(n < 10 && width <= 1) {
      assert width >= 2;
      DecimalLength(n / 10, width - 1);
    }
  }

  lemma {:induction false} ValueOfDecimal(n: nat, width: nat)
    ensures ValueOf(Decimal(n, width)) == n
    decreases n + width
  {
    var s := Decimal(n, width);
    if n < 10 && width <= 1 {
      assert s[..0] == [];
    } else {
      var w' := if width == 0 then 0 else width - 1;
      var q, r := n / 10, n % 10;
      ValueOfDecimal(q, w');
      assert s == Decimal(q, w') + [DigitChar(r)];
      assert s[..|s| - 1] == Decimal(q, w');
      assert DigitValue(s[|s| - 1]) == r;
      assert ValueOf(s) == 10 * q + r;
      assert n == 10 * q + r;
    }
  }

  lemma {:induction false} ValueBound(s: string)
    requires AllDigits(s)
    ensures ValueOf(s) < Pow10(|s|)
    decreases |s|
  {
    if s != [] {
      ValueBound(s[..|s| - 1]);
    }
  }

  lemma {:induction false} DecimalOfValue(s: string)
    requires |s| >= 1 && AllDigits(s)
    ensures Decimal(ValueOf(s), |s|) == s
    decreases |s|
  {
    var p := s[..|s| - 1];
    if |s| == 1 {
      assert p == [];
    } else {
      DecimalOfValue(p);
      assert s == p + [s[|s| - 1]];
    }
  }

  /** The year as toISOString writes it: four digits, or a sign and six digits outside 0..9999. */
  function YearText(y: int): string {
    if 0 <= y <= 9999 then Decimal(y, 4)
    else (if y < 0 then "-" else "+") + Decimal(if y < 0 then -y else y, 6)
  }

  /** `d.toISOString().split('T')[0]` for a date at midnight UTC. */
  function Format(d: CalendarDate): string {
    YearText(d.year) + "-" + Decimal(d.month + 1, 2) + "-" + Decimal(d.day, 2)
  }

  predicate WellFormed(s: string) {
    && |s| == 10 && s[4] == '-' && s[7] == '-'
    && AllDigits(s[..4]) && AllDigits(s[5..7]) && AllDigits(s[8..])
  }

  /**
   * `new Date("YYYY-MM-DD")`: the calendar date the string names, or None for a
   * string that is not of that form or names no real day (an Invalid Date).
   */
  function Parse(s: string): Option<CalendarDate> {
    if !WellFormed(s) then None
    else
      var y, mo, da := ValueOf(s[..4]), ValueOf(s[5..7]), ValueOf(s[8..]);
      if 1 <= mo <= 12 && 1 <= da <= DaysInMonth(y, mo - 1) then Some(Date(y, mo - 1, da))
      else None
  }

  /** Formatting a date of years 0..9999 and parsing the text gives the date back. */
  lemma ParseFormat(d: CalendarDate)
    requires 0 <= d.year <= 9999
    ensures Parse(Format(d)) == Some(d)
  {
    var y, m, dd := Decimal(d.year, 4), Decimal(d.month + 1, 2), Decimal(d.day, 2);
    DecimalLength(d.year, 4);
    DecimalLength(d.month + 1, 2);
    DecimalLength(d.day, 2);
    ValueOfDecimal(d.year, 4);
    ValueOfDecimal(d.month + 1, 2);
    ValueOfDecimal(d.day, 2);
    Assembled(y, m, dd);
  }

  /** Four digits, two and two joined by dashes are well formed, and slice back into their parts. */
  lemma Assembled(y: string, m: string, d: string)
    requires |y| == 4 && |m| == 2 && |d| == 2
    requires AllDigits(y) && AllDigits(m) && AllDigits(d)
    ensures var s := y + "-" + m + "-" + d;
      WellFormed(s) && s[..4] == y && s[5..7] == m && s[8..] == d
  {
    var s := y + "-" + m + "-" + d;
    assert s[..4] == y && s[5..7] == m && s[8..] == d;
  }

  /** Every string that parses is exactly the formatted form of the date it names. */
  lemma FormatParse(s: string)
    requires Parse(s).Some?
    ensures Format(Parse(s).value) == s
  {
    var d := Parse(s).value;
    DecimalOfValue(s[..4]);
    DecimalOfValue(s[5..7]);
    DecimalOfValue(s[8..]);
    ValueBound(s[..4]);
    assert s == s[..4] + "-" + s[5..7] + "-" + s[8..];
  }
}
