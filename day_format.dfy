/**
 * `dayjs(value).format('YYYY-MM-DD')`, the calendar-day form the message
 * searches send as `sendTime`.
 */
module DayFormat {
  import opened JsText

  /** A calendar day as the date picker yields it. */
  datatype Day = Day(year: nat, month: nat, day: nat)

  predicate ValidDay(d: Day)
  {
    d.year <= 9999 && 1 <= d.month <= 12 && 1 <= d.day <= 31
  }

  function Zeros(n: nat): (r: string)
    ensures |r| == n && forall i :: 0 <= i < n ==> r[i] == '0'
  {
    if n == 0 then "" else "0" + Zeros(n - 1)
  }

  /** The numeral of `n`, left-padded with zeros to at least `width` characters. */
  function Padded(n: nat, width: nat): (r: string)
    ensures AllDigits(r)
    ensures |NatToString(n)| <= width ==> |r| == width
  {
    var digits := NatToString(n);
    if |digits| < width then Zeros(width - |digits|) + digits else digits
  }

  function Format(d: Day): string
  {
    Padded(d.year, 4) + "-" + Padded(d.month, 2) + "-" + Padded(d.day, 2)
  }

  lemma {:induction false} NumeralLength(n: nat, k: nat)
    requires n < Pow10(k) && k >= 1
    ensures |NatToString(n)| <= k
  {
    if n >= 10 {
      NumeralLength(n / 10, k - 1);
    }
  }

  function Pow10(k: nat): nat
  {
    if k == 0 then 1 else 10 * Pow10(k - 1)
  }

  lemma {:induction false} ZerosParse(n: nat)
    ensures ParseDigits(Zeros(n)) == 0
  {
    if n > 0 {
      ZerosParse(n - 1);
      var z := Zeros(n);
      assert z[..|z| - 1] == Zeros(n - 1);
    }
  }

  /** Leading zeros do not change the value. */
  lemma {:induction false} LeadingZeros(z: nat, s: string)
    requires AllDigits(s)
    ensures AllDigits(Zeros(z) + s) && ParseDigits(Zeros(z) + s) == ParseDigits(s)
  {
    if |s| == 0 {
      assert Zeros(z) + s == Zeros(z);
      ZerosParse(z);
    } else {
      var t := Zeros(z) + s;
      LeadingZeros(z, s[..|s| - 1]);
      assert t[..|t| - 1] == Zeros(z) + s[..|s| - 1];
    }
  }

  lemma PaddedValue(n: nat, width: nat)
    ensures ParseDigits(Padded(n, width)) == n
  {
    ParseNatToString(n);
    var digits := NatToString(n);
    if |digits| < width {
      LeadingZeros(width - |digits|, digits);
      assert Padded(n, width) == Zeros(width - |digits|) + digits;
    } else {
      assert Padded(n, width) == digits;
    }
  }

  /**
   * A valid day is written as ten characters, four, two and two digits
   * separated by dashes, and the digit groups read back as the year, the
   * month and the day.
   */
  lemma FormatReadsBack(d: Day)
    requires ValidDay(d)
    ensures var r := Format(d);
      |r| == 10 && r[4] == '-' && r[7] == '-'
      && AllDigits(r[..4]) && AllDigits(r[5..7]) && AllDigits(r[8..])
      && ParseDigits(r[..4]) == d.year && ParseDigits(r[5..7]) == d.month && ParseDigits(r[8..]) == d.day
  {
    NumeralLength(d.year, 4);
    NumeralLength(d.month, 2);
    NumeralLength(d.day, 2);
    var y, m, dd := Padded(d.year, 4), Padded(d.month, 2), Padded(d.day, 2);
    var r := Format(d);
    assert r[..4] == y && r[5..7] == m && r[8..] == dd;
    PaddedValue(d.year, 4);
    PaddedValue(d.month, 2);
    PaddedValue(d.day, 2);
  }

  /** Different valid days are different search values. */
  lemma FormatInjective(a: Day, b: Day)
    requires ValidDay(a) && ValidDay(b) && Format(a) == Format(b)
    ensures a == b
  {
    FormatReadsBack(a);
    FormatReadsBack(b);
  }
}
