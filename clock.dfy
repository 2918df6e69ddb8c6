/**
 * Calendar days as the worker reads them from its clock, and the
 * `YYYY-MM-DD` rendering it writes into the "Entry date" property.
 */
module Clock {

  import opened Results

  /** A calendar day in the worker's local time zone. */
  datatype CalendarDay = CalendarDay(year: nat, month: nat, day: nat)

  /**
   * One reading of the clock: the day, and its `dddd, DD MMMM` title label
   * ("Monday, 03 June"). The label depends on the locale's weekday and
   * month names, so it is given rather than computed.
   */
  datatype Today = Today(day: CalendarDay, title: string)

  predicate IsLeapYear(y: nat) {
    y % 4 == 0 && (y % 100 != 0 || y % 400 == 0)
  }

  function DaysInMonth(y: nat, m: nat): nat
    requires 1 <= m <= 12
  {
    if m == 2 then (if IsLeapYear(y) then 29 else 28)
    else if m == 4 || m == 6 || m == 9 || m == 11 then 30
    else 31
  }

  /** A real Gregorian day whose year has at most four digits. */
  predicate ValidDay(d: CalendarDay) {
    d.year < 10000 && 1 <= d.month <= 12 && 1 <= d.day <= DaysInMonth(d.year, d.month)
  }

  predicate IsDigit(c: char) {
    '0' <= c <= '9'
  }

  predicate AllDigits(s: string) {
    forall i | 0 <= i < |s| :: IsDigit(s[i])
  }

  function Pow10(n: nat): (p: nat)
    ensures p >= 1
  {
    if n == 0 then 1 else 10 * Pow10(n - 1)
  }

  function DigitChar(k: nat): (c: char)
    requires k < 10
    ensures IsDigit(c) && c as int - '0' as int == k
  {
    ('0' as int + k) as char
  }

  /**
   * The last `width` decimal digits of `n`, zero-padded on the left. For
   * `n < Pow10(width)` this is the padded rendering that the `YYYY`, `MM`
   * and `DD` format tokens produce.
   */
  function Dec(n: nat, width: nat): (s: string)
    ensures |s| == width && AllDigits(s)
  {
    if width == 0 then "" else Dec(n / 10, width - 1) + [DigitChar(n % 10)]
  }

  /** The number a string of decimal digits denotes. */
  function DecValue(s: string): (n: nat)
    requires AllDigits(s)
    ensures n < Pow10(|s|)
  {
    if s == [] then 0
    else 10 * DecValue(s[..|s| - 1]) + (s[|s| - 1] as int - '0' as int)
  }

  lemma {:induction false} DecValueOfDec(n: nat, width: nat)
    requires n < Pow10(width)
    ensures DecValue(Dec(n, width)) == n
  {
    if width > 0 {
      var s := Dec(n, width);
      assert s[..|s| - 1] == Dec(n / 10, width - 1);
      DecValueOfDec(n / 10, width - 1);
    }
  }

  lemma {:induction false} DecOfDecValue(s: string)
    requires AllDigits(s)
    ensures Dec(DecValue(s), |s|) == s
  {
    if s != [] {
      var p := s[..|s| - 1];
      DecOfDecValue(p);
      assert DigitChar(DecValue(s) % 10) == s[|s| - 1];
      assert p + [s[|s| - 1]] == s;
    }
  }

  /** `d` rendered with the format string `YYYY-MM-DD`. */
  function IsoDate(d: CalendarDay): (s: string)
    requires ValidDay(d)
    ensures |s| == 10 && s[4] == '-' && s[7] == '-'
    ensures AllDigits(s[..4]) && AllDigits(s[5..7]) && AllDigits(s[8..])
  {
    Dec(d.year, 4) + "-" + Dec(d.month, 2) + "-" + Dec(d.day, 2)
  }

  /** The calendar day a date-only `YYYY-MM-DD` string denotes, if it is one. */
  function ParseIsoDate(s: string): Option<CalendarDay> {
    if |s| == 10 && s[4] == '-' && s[7] == '-'
       && AllDigits(s[..4]) && AllDigits(s[5..7]) && AllDigits(s[8..])
    then
      var d := CalendarDay(DecValue(s[..4]), DecValue(s[5..7]), DecValue(s[8..]));
      if ValidDay(d) then Some(d) else None
    else None
  }

  /** Reading back a rendered day gives that day: the rendering is injective. */
  lemma ParseIsoDateOfIsoDate(d: CalendarDay)
    requires ValidDay(d)
    ensures ParseIsoDate(IsoDate(d)) == Some(d)
  {
    var s := IsoDate(d);
    assert s[..4] == Dec(d.year, 4);
    assert s[5..7] == Dec(d.month, 2);
    assert s[8..] == Dec(d.day, 2);
    assert Pow10(4) == 10000 && Pow10(2) == 100;
    DecValueOfDec(d.year, 4);
    DecValueOfDec(d.month, 2);
    DecValueOfDec(d.day, 2);
  }

  /** Every string that reads as a day is that day's rendering: the rendering is onto the valid strings. */
  lemma IsoDateOfParseIsoDate(s: string)
    requires ParseIsoDate(s).Some?
    ensures IsoDate(ParseIsoDate(s).value) == s
  {
    DecOfDecValue(s[..4]);
    DecOfDecValue(s[5..7]);
    DecOfDecValue(s[8..]);
    assert s == s[..4] + "-" + s[5..7] + "-" + s[8..];
  }

  /** The worked example: 3 June 2024 is written as "2024-06-03". */
  lemma IsoDateExample()
    ensures IsoDate(CalendarDay(2024, 6, 3)) == "2024-06-03"
  {
  }
}
