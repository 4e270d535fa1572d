/**
 * Proleptic Gregorian calendar arithmetic on day numbers counted from
 * 1970-01-01, and the zero-padded decimal text that `strftime` writes.
 *
 * Both Lambda handlers work with naive `datetime` values: the cost jobs take
 * `datetime.now().date()`, step it by whole days and jump to the first of the
 * month; the log exporter truncates `datetime.now()` to the hour and prints the
 * start of the window as YYYY/MM/DD/HH. Here an instant is a whole number of
 * seconds and a date is a day number; this module recovers the calendar fields.
 */
module Calendar {

  const Epoch: int := 1970
  const SecondsPerHour: int := 3600
  const SecondsPerDay: int := 86400

  datatype Date = Date(year: int, month: int, day: int)

  predicate IsLeap(y: int) {
    y % 4 == 0 && (y % 100 != 0 || y % 400 == 0)
  }

  function DaysInYear(y: int): int {
    if IsLeap(y) then 366 else 365
  }

  function DaysInMonth(y: int, m: int): int
    requires 1 <= m <= 12
  {
    if m == 2 then (if IsLeap(y) then 29 else 28)
    else if m == 4 || m == 6 || m == 9 || m == 11 then 30
    else 31
  }

  /** Number of days of year y that come before month m. */
  function MonthStart(y: int, m: int): int
    requires 1 <= m <= 12
  {
    var leap := if IsLeap(y) && m > 2 then 1 else 0;
    leap + (
      if m == 1 then 0 else if m == 2 then 31 else if m == 3 then 59
      else if m == 4 then 90 else if m == 5 then 120 else if m == 6 then 151
      else if m == 7 then 181 else if m == 8 then 212 else if m == 9 then 243
      else if m == 10 then 273 else if m == 11 then 304 else 334)
  }

  predicate ValidDate(d: Date) {
    1 <= d.month <= 12 && 1 <= d.day <= DaysInMonth(d.year, d.month)
  }

  /** Day number of January 1st of year y. */
  function YearStart(y: int): int
    decreases if y < Epoch then Epoch - y else y - Epoch
  {
    if y == Epoch then 0
    else if y > Epoch then YearStart(y - 1) + DaysInYear(y - 1)
    else YearStart(y + 1) - DaysInYear(y)
  }

  /** The day number of a calendar date. */
  function DayNumber(d: Date): int
    requires ValidDate(d)
  {
    YearStart(d.year) + MonthStart(d.year, d.month) + d.day - 1
  }

  lemma YearStartStep(y: int)
    ensures YearStart(y + 1) == YearStart(y) + DaysInYear(y)
  {
  }

  /** Years are laid end to end: a later year starts after the whole of an earlier one. */
  lemma {:induction false} YearStartMonotone(a: int, b: int)
    requires a < b
    ensures YearStart(b) >= YearStart(a) + DaysInYear(a)
    decreases b - a
  {
    YearStartStep(b - 1);
    if a < b - 1 {
      YearStartMonotone(a, b - 1);
    }
  }

  lemma MonthsFillYear(y: int, m: int)
    requires 1 <= m <= 12
    ensures 0 <= MonthStart(y, m)
    ensures MonthStart(y, m) + DaysInMonth(y, m) <= DaysInYear(y)
    ensures m < 12 ==> MonthStart(y, m + 1) == MonthStart(y, m) + DaysInMonth(y, m)
    ensures m == 12 ==> MonthStart(y, m) + DaysInMonth(y, m) == DaysInYear(y)
  {
  }

  /** Months of one year do not overlap. */
  lemma {:induction false} MonthStartMonotone(y: int, a: int, b: int)
    requires 1 <= a < b <= 12
    ensures MonthStart(y, b) >= MonthStart(y, a) + DaysInMonth(y, a)
    decreases b - a
  {
    MonthsFillYear(y, b - 1);
    if a < b - 1 {
      MonthStartMonotone(y, a, b - 1);
      MonthsFillYear(y, a);
    }
  }

  /**
   * The year that holds day `YearStart(y) + d`, found by walking year by year
   * from y, together with the index of that day inside its year.
   */
  function LocateYear(y: int, d: int): (r: (int, int))
    ensures 0 <= r.1 < DaysInYear(r.0)
    ensures YearStart(r.0) + r.1 == YearStart(y) + d
    decreases if d < 0 then 366 - d else d
  {
    if d < 0 then
      YearStartStep(y - 1);
      LocateYear(y - 1, d + DaysInYear(y - 1))
    else if d >= DaysInYear(y) then
      YearStartStep(y);
      LocateYear(y + 1, d - DaysInYear(y))
    else
      (y, d)
  }

  /** The month of year y that holds day-of-year `doy`, walking from month m. */
  function LocateMonth(y: int, m: int, doy: int): (r: int)
    requires 1 <= m <= 12
    requires MonthStart(y, m) <= doy < DaysInYear(y)
    ensures m <= r <= 12
    ensures MonthStart(y, r) <= doy < MonthStart(y, r) + DaysInMonth(y, r)
    decreases 12 - m
  {
    MonthsFillYear(y, m);
    if doy < MonthStart(y, m) + DaysInMonth(y, m) then m
    else LocateMonth(y, m + 1, doy)
  }

  /** The calendar date of day number n (1970-01-01 is day 0), as `date.fromordinal(n + 719163)` gives it. */
  function CivilFromDays(n: int): (d: Date)
    ensures ValidDate(d)
    ensures DayNumber(d) == n
  {
    var (y, doy) := LocateYear(Epoch, n);
    var m := LocateMonth(y, 1, doy);
    Date(y, m, doy - MonthStart(y, m) + 1)
  }

  lemma YearUnique(y1: int, d1: int, y2: int, d2: int)
    requires 0 <= d1 < DaysInYear(y1) && 0 <= d2 < DaysInYear(y2)
    requires YearStart(y1) + d1 == YearStart(y2) + d2
    ensures y1 == y2 && d1 == d2
  {
    if y1 < y2 {
      YearStartMonotone(y1, y2);
    } else if y2 < y1 {
      YearStartMonotone(y2, y1);
    }
  }

  lemma MonthUnique(y: int, m1: int, m2: int, doy: int)
    requires 1 <= m1 <= 12 && 1 <= m2 <= 12
    requires MonthStart(y, m1) <= doy < MonthStart(y, m1) + DaysInMonth(y, m1)
    requires MonthStart(y, m2) <= doy < MonthStart(y, m2) + DaysInMonth(y, m2)
    ensures m1 == m2
  {
    if m1 < m2 {
      MonthStartMonotone(y, m1, m2);
    } else if m2 < m1 {
      MonthStartMonotone(y, m2, m1);
    }
  }

  /** Every valid date is the calendar date of its own day number. */
  lemma CivilOfDayNumber(d: Date)
    requires ValidDate(d)
    ensures CivilFromDays(DayNumber(d)) == d
  {
    var n := DayNumber(d);
    var doy := MonthStart(d.year, d.month) + d.day - 1;
    MonthsFillYear(d.year, d.month);
    var (y, k) := LocateYear(Epoch, n);
    assert YearStart(Epoch) == 0;
    YearUnique(y, k, d.year, doy);
    var m := LocateMonth(y, 1, k);
    MonthUnique(y, m, d.month, doy);
  }

  /** The first day of the month holding day n (`date.replace(day=1)`). */
  function FirstOfMonth(n: int): int {
    n - (CivilFromDays(n).day - 1)
  }

  lemma FirstOfMonthIsDayOne(n: int)
    ensures FirstOfMonth(n) <= n < FirstOfMonth(n) + 31
    ensures CivilFromDays(FirstOfMonth(n)) ==
            Date(CivilFromDays(n).year, CivilFromDays(n).month, 1)
  {
    var c := CivilFromDays(n);
    var first := Date(c.year, c.month, 1);
    assert DayNumber(first) == FirstOfMonth(n);
    CivilOfDayNumber(first);
  }

  /** The calendar date of a naive instant given in seconds. */
  function DateOf(t: int): Date {
    CivilFromDays(t / SecondsPerDay)
  }

  /** The hour of the day of a naive instant given in seconds. */
  function HourOf(t: int): (h: int)
    ensures 0 <= h < 24
  {
    (t % SecondsPerDay) / SecondsPerHour
  }

  function DigitChar(k: int): char
    requires 0 <= k < 10
  {
    ('0' as int + k) as char
  }

  function DigitValue(c: char): int {
    if '0' <= c <= '9' then c as int - '0' as int else 0
  }

  /** Decimal text of n, zero-padded on the left to at least w digits. */
  function Decimal(n: nat, w: nat): (s: string)
    ensures |s| >= w && |s| >= 1
    ensures forall i :: 0 <= i < |s| ==> '0' <= s[i] <= '9'
    decreases n, w
  {
    if n < 10 && w <= 1 then [DigitChar(n)]
    else Decimal(n / 10, if w == 0 then 0 else w - 1) + [DigitChar(n % 10)]
  }

  /** The number a string of decimal digits denotes. */
  function Value(s: string): int {
    if s == [] then 0 else Value(s[..|s| - 1]) * 10 + DigitValue(s[|s| - 1])
  }

  lemma DigitRoundTrip(k: int)
    requires 0 <= k < 10
    ensures DigitValue(DigitChar(k)) == k
  {
  }

  /** One more digit on the right: ten times the value, plus the digit. */
  lemma ValueSnoc(s: string, c: char)
    ensures Value(s + [c]) == Value(s) * 10 + DigitValue(c)
  {
    assert (s + [c])[..|s|] == s;
  }

  /** Reading the padded text back gives the number. */
  lemma {:induction false} DecimalRoundTrip(n: nat, w: nat)
    ensures Value(Decimal(n, w)) == n
    decreases n, w
  {
    if n < 10 && w <= 1 {
      DigitRoundTrip(n);
      ValueSnoc([], DigitChar(n));
    } else {
      DecimalRoundTrip(n / 10, if w == 0 then 0 else w - 1);
      DecimalStep(n, w);
    }
  }

  /** The last digit on top of the digits of n / 10 reads back as n. */
  lemma DecimalStep(n: nat, w: nat)
    requires !(n < 10 && w <= 1)
    requires Value(Decimal(n / 10, if w == 0 then 0 else w - 1)) == n / 10
    ensures Value(Decimal(n, w)) == n
  {
    var w' := if w == 0 then 0 else w - 1;
    var q, d := n / 10, n % 10;
    assert Decimal(n, w) == Decimal(q, w') + [DigitChar(d)];
    DigitRoundTrip(d);
    ValueSnoc(Decimal(q, w'), DigitChar(d));
  }

  /** Numbers below 10^w take exactly w digits. */
  lemma {:induction false} DecimalWidth(n: nat, w: nat)
    requires 1 <= w && n < Pow10(w)
    ensures |Decimal(n, w)| == w
    decreases w
  {
    if !(n < 10 && w <= 1) {
      if w == 1 {
        assert false;
      }
      DecimalWidth(n / 10, w - 1);
    }
  }

  function Pow10(w: nat): nat {
    if w == 0 then 1 else 10 * Pow10(w - 1)
  }

  /** `strftime('%Y')`: the year as four digits at least. */
  function YearText(y: int): string {
    if y >= 0 then Decimal(y, 4) else "-" + Decimal(-y, 4)
  }

  /** `strftime('%Y/%m/%d/%H')` of a naive instant. */
  function HourStamp(t: int): (s: string)
    ensures |s| >= 13
  {
    var d := DateOf(t);
    YearText(d.year) + "/" + Decimal(d.month, 2) + "/" + Decimal(d.day, 2) + "/" + Decimal(HourOf(t), 2)
  }

  /**
   * For years 0 to 9999 the stamp is exactly 13 characters, slashes at 4, 7
   * and 10, and its digit fields read back as the year, month, day and hour.
   */
  lemma HourStampFields(t: int)
    requires 0 <= DateOf(t).year < 10000
    ensures var s := HourStamp(t);
      |s| == 13 && s[4] == '/' && s[7] == '/' && s[10] == '/' &&
      Value(s[0..4]) == DateOf(t).year && Value(s[5..7]) == DateOf(t).month &&
      Value(s[8..10]) == DateOf(t).day && Value(s[11..13]) == HourOf(t)
  {
    var d := DateOf(t);
    var h := HourOf(t);
    FieldWidths(d.year, d.month, d.day, h);
    DecimalRoundTrip(d.year, 4);
    DecimalRoundTrip(d.month, 2);
    DecimalRoundTrip(d.day, 2);
    DecimalRoundTrip(h, 2);
    StampSlices(Decimal(d.year, 4), Decimal(d.month, 2), Decimal(d.day, 2), Decimal(h, 2));
  }

  lemma FieldWidths(y: int, m: int, d: int, h: int)
    requires 0 <= y < 10000 && 1 <= m <= 12 && 1 <= d <= 31 && 0 <= h < 24
    ensures |Decimal(y, 4)| == 4 && |Decimal(m, 2)| == 2 && |Decimal(d, 2)| == 2 && |Decimal(h, 2)| == 2
  {
    assert Pow10(4) == 10000 && Pow10(2) == 100;
    DecimalWidth(y, 4);
    DecimalWidth(m, 2);
    DecimalWidth(d, 2);
    DecimalWidth(h, 2);
  }

  lemma StampSlices(y: string, m: string, d: string, h: string)
    requires |y| == 4 && |m| == 2 && |d| == 2 && |h| == 2
    ensures var s := y + "/" + m + "/" + d + "/" + h;
      |s| == 13 && s[4] == '/' && s[7] == '/' && s[10] == '/' &&
      s[0..4] == y && s[5..7] == m && s[8..10] == d && s[11..13] == h
  {
    var s := y + "/" + m + "/" + d + "/" + h;
    assert s[0..4] == y;
    assert s[5..7] == m;
    assert s[8..10] == d;
    assert s[11..13] == h;
  }
}
