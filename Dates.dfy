/**
 * Calendar dates as `_parse_date` produces them: the partial parser of
 * ISO-8601 date strings, the formatter `date.isoformat`, the proleptic
 * Gregorian day count behind `datetime` subtraction, and the fact that for
 * well-formed strings Python's string order is chronological order.
 */
module Dates {
  import opened Wrappers
  import opened LexOrder

  datatype Date = Date(year: int, month: int, day: int)

  const MinYear := 1
  const MaxYear := 9999

  predicate IsLeapYear(y: int)
  {
    y % 4 == 0 && (y % 100 != 0 || y % 400 == 0)
  }

  function DaysInMonth(y: int, m: int): int
  {
    if m == 2 then (if IsLeapYear(y) then 29 else 28)
    else if m == 4 || m == 6 || m == 9 || m == 11 then 30
    else 31
  }

  function DaysInYear(y: int): int
  {
    if IsLeapYear(y) then 366 else 365
  }

  predicate ValidDate(d: Date)
  {
    MinYear <= d.year <= MaxYear && 1 <= d.month <= 12 && 1 <= d.day <= DaysInMonth(d.year, d.month)
  }

  /** Days in the years before `y` (year 1 starts the count). */
  function DaysBeforeYear(y: int): int
    requires y >= 1
  {
    var k := y - 1;
    k * 365 + k / 4 - k / 100 + k / 400
  }

  /** Days in the months of year `y` before month `m`. */
  function DaysBeforeMonth(y: int, m: int): int
    requires 1 <= m <= 12
  {
    var common :=
      if m == 1 then 0 else if m == 2 then 31 else if m == 3 then 59
      else if m == 4 then 90 else if m == 5 then 120 else if m == 6 then 151
      else if m == 7 then 181 else if m == 8 then 212 else if m == 9 then 243
      else if m == 10 then 273 else if m == 11 then 304 else 334;
    common + (if m > 2 && IsLeapYear(y) then 1 else 0)
  }

  /**
   * The day number of a date, 0001-01-01 being day 1 (`date.toordinal`):
   * a date falls among the days of its own year.
   */
  function Ordinal(d: Date): (n: int)
    requires ValidDate(d)
    ensures DaysBeforeYear(d.year) < n <= DaysBeforeYear(d.year) + DaysInYear(d.year)
  {
    YearEnd(d);
    DaysBeforeYear(d.year) + DaysBeforeMonth(d.year, d.month) + d.day
  }

  /** `a < b` on dates: field by field, as `datetime` compares them. */
  predicate Before(a: Date, b: Date)
  {
    a.year < b.year
    || (a.year == b.year && (a.month < b.month || (a.month == b.month && a.day < b.day)))
  }

  lemma YearStep(y: int)
    requires y >= 1
    ensures DaysBeforeYear(y + 1) == DaysBeforeYear(y) + DaysInYear(y)
  {
    var k := y - 1;
    assert y / 4 == k / 4 + (if y % 4 == 0 then 1 else 0);
    assert y / 100 == k / 100 + (if y % 100 == 0 then 1 else 0);
    assert y / 400 == k / 400 + (if y % 400 == 0 then 1 else 0);
  }

  lemma {:induction false} YearsApart(y1: int, y2: int)
    requires 1 <= y1 < y2
    ensures DaysBeforeYear(y1) + DaysInYear(y1) <= DaysBeforeYear(y2)
    decreases y2 - y1
  {
    YearStep(y1);
    if y1 + 1 < y2 {
      YearsApart(y1 + 1, y2);
    }
  }

  lemma {:induction false} MonthsApart(y: int, m1: int, m2: int)
    requires 1 <= m1 < m2 <= 12
    ensures DaysBeforeMonth(y, m1) + DaysInMonth(y, m1) <= DaysBeforeMonth(y, m2)
    decreases m2 - m1
  {
    if m1 + 1 < m2 {
      MonthsApart(y, m1 + 1, m2);
    }
  }

  lemma YearEnd(d: Date)
    requires ValidDate(d)
    ensures DaysBeforeMonth(d.year, d.month) + d.day <= DaysInYear(d.year)
  {
  }

  /** The day number grows strictly with the calendar order. */
  lemma OrdinalMonotone(a: Date, b: Date)
    requires ValidDate(a) && ValidDate(b) && Before(a, b)
    ensures Ordinal(a) < Ordinal(b)
  {
    if a.year < b.year {
      YearEnd(a);
      YearsApart(a.year, b.year);
    } else if a.month < b.month {
      MonthsApart(a.year, a.month, b.month);
    }
  }

  /** `(later - earlier).days` for two dates without a time of day. */
  function DaysBetween(earlier: Date, later: Date): (days: int)
    requires ValidDate(earlier) && ValidDate(later)
    ensures days == 0 <==> earlier == later
    ensures days > 0 <==> Before(earlier, later)
  {
    OrdinalOrder(earlier, later);
    Ordinal(later) - Ordinal(earlier)
  }

  /** The calendar day after `d` (`d + timedelta(days=1)`). */
  function NextDay(d: Date): (n: Date)
    requires ValidDate(d)
    ensures Before(d, n)
    ensures n.year <= MaxYear ==> ValidDate(n)
  {
    if d.day < DaysInMonth(d.year, d.month) then Date(d.year, d.month, d.day + 1)
    else if d.month < 12 then Date(d.year, d.month + 1, 1)
    else Date(d.year + 1, 1, 1)
  }

  /**
   * Day numbers count calendar days: the next day's number is one more,
   * across month ends, year ends and leap days alike.
   */
  lemma NextDayOrdinal(d: Date)
    requires ValidDate(d) && ValidDate(NextDay(d))
    ensures Ordinal(NextDay(d)) == Ordinal(d) + 1
    ensures DaysBetween(d, NextDay(d)) == 1
  {
    if d.day == DaysInMonth(d.year, d.month) {
      if d.month < 12 {
        MonthStep(d.year, d.month);
      } else {
        YearStep(d.year);
      }
    }
  }

  lemma MonthStep(y: int, m: int)
    requires 1 <= m < 12
    ensures DaysBeforeMonth(y, m + 1) == DaysBeforeMonth(y, m) + DaysInMonth(y, m)
  {
  }

  /** On valid dates, calendar order and day-number order coincide. */
  lemma OrdinalOrder(a: Date, b: Date)
    requires ValidDate(a) && ValidDate(b)
    ensures Before(a, b) <==> Ordinal(a) < Ordinal(b)
    ensures a == b <==> Ordinal(a) == Ordinal(b)
  {
    if Before(a, b) {
      OrdinalMonotone(a, b);
    } else if a != b {
      assert Before(b, a);
      OrdinalMonotone(b, a);
    }
  }

  /**
   * `_parse_date`: `datetime.fromisoformat` restricted to the calendar-date
   * form `YYYY-MM-DD`; `None` stands for the ValueError it raises.
   */
  function ParseDate(s: string): (r: Option<Date>)
    ensures r.Some? ==> ValidDate(r.value)
  {
    if |s| == 10 && s[4] == '-' && s[7] == '-'
       && IsDigits(s[..4]) && IsDigits(s[5..7]) && IsDigits(s[8..])
    then
      var d := Date(DigitsValue(s[..4]), DigitsValue(s[5..7]), DigitsValue(s[8..]));
      if ValidDate(d) then Some(d) else None
    else None
  }

  /** `date.isoformat()`. */
  function FormatDate(d: Date): (s: string)
    requires ValidDate(d)
    ensures |s| == 10
  {
    Pad(d.year, 4) + "-" + Pad(d.month, 2) + "-" + Pad(d.day, 2)
  }

  lemma FormatParts(d: Date)
    requires ValidDate(d)
    ensures FormatDate(d)[..4] == Pad(d.year, 4)
    ensures FormatDate(d)[4] == '-' && FormatDate(d)[7] == '-'
    ensures FormatDate(d)[5..7] == Pad(d.month, 2)
    ensures FormatDate(d)[8..] == Pad(d.day, 2)
    ensures FormatDate(d) == Pad(d.year, 4) + ("-" + (Pad(d.month, 2) + ("-" + Pad(d.day, 2))))
  {
  }

  /** Parsing a formatted valid date gives the date back. */
  lemma ParseFormat(d: Date)
    requires ValidDate(d)
    ensures ParseDate(FormatDate(d)) == Some(d)
  {
    var s := FormatDate(d);
    FormatParts(d);
    assert Pow10(2) == 100 && Pow10(4) == 10000;
    PadValue(d.year, 4);
    PadValue(d.month, 2);
    PadValue(d.day, 2);
  }

  /** A string the parser accepts is exactly the formatted form of its date. */
  lemma FormatParse(s: string)
    requires ParseDate(s).Some?
    ensures FormatDate(ParseDate(s).value) == s
  {
    var d := ParseDate(s).value;
    ValuePad(s[..4]);
    ValuePad(s[5..7]);
    ValuePad(s[8..]);
    assert s == s[..4] + "-" + s[5..7] + "-" + s[8..];
  }

  lemma PadInjective(x: nat, y: nat, width: nat)
    requires x < Pow10(width) && y < Pow10(width)
    ensures Pad(x, width) == Pad(y, width) <==> x == y
    ensures LexLess(Pad(x, width), Pad(y, width)) <==> x < y
  {
    PadValue(x, width);
    PadValue(y, width);
    DigitsLexOrder(Pad(x, width), Pad(y, width));
  }

  /** On formatted dates, Python's string order is the calendar order. */
  lemma FormatOrder(a: Date, b: Date)
    requires ValidDate(a) && ValidDate(b)
    ensures LexLess(FormatDate(a), FormatDate(b)) <==> Before(a, b)
  {
    FormatParts(a);
    FormatParts(b);
    assert Pow10(2) == 100 && Pow10(4) == 10000;
    PadInjective(a.year, b.year, 4);
    PadInjective(a.month, b.month, 2);
    PadInjective(a.day, b.day, 2);
    var ya, yb := Pad(a.year, 4), Pad(b.year, 4);
    var ma, mb := Pad(a.month, 2), Pad(b.month, 2);
    var da, db := Pad(a.day, 2), Pad(b.day, 2);
    LexAppend(ya, "-" + (ma + ("-" + da)), yb, "-" + (mb + ("-" + db)));
    LexAppend("-", ma + ("-" + da), "-", mb + ("-" + db));
    LexIrreflexive("-");
    LexAppend(ma, "-" + da, mb, "-" + db);
    LexAppend("-", da, "-", db);
  }

  /**
   * For strings the parser accepts, sorting them as strings (as
   * `sorted(daily_totals.keys())` does) sorts them chronologically.
   */
  lemma LexIsChronological(s: string, t: string)
    requires ParseDate(s).Some? && ParseDate(t).Some?
    ensures LexLess(s, t) <==> Ordinal(ParseDate(s).value) < Ordinal(ParseDate(t).value)
  {
    FormatParse(s);
    FormatParse(t);
    FormatOrder(ParseDate(s).value, ParseDate(t).value);
    OrdinalOrder(ParseDate(s).value, ParseDate(t).value);
  }
}
