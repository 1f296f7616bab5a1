/**
 * Timestamps as the entity codecs use them: `datetime.isoformat()` text,
 * read back by `iso8601.parse_date`, and POSIX epoch seconds, read by
 * `datetime.fromtimestamp`.
 */
module Timestamps {
  import opened Wrappers

  /** A calendar date and time of day, to the second. */
  datatype DateTime = DateTime(year: int, month: int, day: int, hour: int, minute: int, second: int)

  predicate IsLeapYear(y: int) {
    y % 4 == 0 && (y % 100 != 0 || y % 400 == 0)
  }

  function DaysInYear(y: int): int {
    if IsLeapYear(y) then 366 else 365
  }

  function DaysInMonth(y: int, m: int): int
    requires 1 <= m <= 12
  {
    if m == 2 then (if IsLeapYear(y) then 29 else 28)
    else if m in {4, 6, 9, 11} then 30
    else 31
  }

  /** What Python's `datetime` accepts: years 1 to 9999 and real calendar days. */
  predicate IsValid(d: DateTime) {
    && 1 <= d.year <= 9999
    && 1 <= d.month <= 12
    && 1 <= d.day <= DaysInMonth(d.year, d.month)
    && 0 <= d.hour < 24
    && 0 <= d.minute < 60
    && 0 <= d.second < 60
  }

  type Timestamp = d: DateTime | IsValid(d) witness DateTime(1970, 1, 1, 0, 0, 0)

  // ----- ISO-8601 text -----

  predicate IsDigit(c: char) {
    '0' <= c <= '9'
  }

  function Pow10(w: nat): nat {
    if w == 0 then 1 else 10 * Pow10(w - 1)
  }

  /** `n` written with exactly `width` decimal digits, zero-padded on the left. */
  function Digits(n: nat, width: nat): (s: string)
    ensures |s| == width
    ensures forall i :: 0 <= i < width ==> IsDigit(s[i])
  {
    if width == 0 then [] else Digits(n / 10, width - 1) + [('0' as int + n % 10) as char]
  }

  function DigitsValue(s: string): nat
    requires forall i :: 0 <= i < |s| ==> IsDigit(s[i])
  {
    if s == [] then 0
    else
      assert IsDigit(s[|s| - 1]);
      DigitsValue(s[..|s| - 1]) * 10 + (s[|s| - 1] as int - '0' as int)
  }

  lemma {:induction false} DigitsRoundTrip(n: nat, width: nat)
    requires n < Pow10(width)
    ensures DigitsValue(Digits(n, width)) == n
  {
    if width > 0 {
      var s := Digits(n, width);
      assert s[..|s| - 1] == Digits(n / 10, width - 1);
      DigitsRoundTrip(n / 10, width - 1);
    }
  }

  /** Digit text is the zero-padded writing of its own value. */
  lemma {:induction false} ValueDigits(s: string)
    requires forall i :: 0 <= i < |s| ==> IsDigit(s[i])
    ensures Digits(DigitsValue(s), |s|) == s
  {
    if s != [] {
      var p := s[..|s| - 1];
      var c := s[|s| - 1];
      assert IsDigit(c);
      assert DigitsValue(s) / 10 == DigitsValue(p) && DigitsValue(s) % 10 == c as int - '0' as int;
      ValueDigits(p);
      assert s == p + [c];
    }
  }

  /** `t.isoformat()` for a timestamp with no microseconds and no time zone. */
  function IsoFormat(t: Timestamp): (s: string)
    ensures |s| == 19
    ensures s[4] == '-' && s[7] == '-' && s[10] == 'T' && s[13] == ':' && s[16] == ':'
  {
    Digits(t.year, 4) + "-" + Digits(t.month, 2) + "-" + Digits(t.day, 2) + "T"
      + Digits(t.hour, 2) + ":" + Digits(t.minute, 2) + ":" + Digits(t.second, 2)
  }

  predicate AllDigits(s: string) {
    forall i :: 0 <= i < |s| ==> IsDigit(s[i])
  }

  predicate IsIsoShape(s: string) {
    && |s| == 19
    && s[4] == '-' && s[7] == '-' && s[10] == 'T' && s[13] == ':' && s[16] == ':'
    && AllDigits(s[0..4]) && AllDigits(s[5..7]) && AllDigits(s[8..10])
    && AllDigits(s[11..13]) && AllDigits(s[14..16]) && AllDigits(s[17..19])
  }

  /** `iso8601.parse_date(s)` for text of the shape `isoformat` writes; None where it raises. */
  function ParseIso(s: string): (r: Option<Timestamp>)
    ensures r.Some? ==> IsIsoShape(s)
    ensures r.Some? ==> IsoFormat(r.value) == s
  {
    if IsIsoShape(s) then
      var d := DateTime(DigitsValue(s[0..4]), DigitsValue(s[5..7]), DigitsValue(s[8..10]),
                        DigitsValue(s[11..13]), DigitsValue(s[14..16]), DigitsValue(s[17..19]));
      if IsValid(d) then IsoShapeFormat(s, d); Some(d) else None
    else None
  }

  /** Formatting the fields read from ISO-shaped text writes that text again. */
  lemma IsoShapeFormat(s: string, d: Timestamp)
    requires IsIsoShape(s)
    requires d == DateTime(DigitsValue(s[0..4]), DigitsValue(s[5..7]), DigitsValue(s[8..10]),
                           DigitsValue(s[11..13]), DigitsValue(s[14..16]), DigitsValue(s[17..19]))
    ensures IsoFormat(d) == s
  {
    ValueDigits(s[0..4]);
    ValueDigits(s[5..7]);
    ValueDigits(s[8..10]);
    ValueDigits(s[11..13]);
    ValueDigits(s[14..16]);
    ValueDigits(s[17..19]);
    assert s == s[0..4] + "-" + s[5..7] + "-" + s[8..10] + "T" + s[11..13] + ":" + s[14..16] + ":" + s[17..19];
  }

  /** ISO text read back is exactly the text of one timestamp. */
  lemma ParseIsoIff(s: string, t: Timestamp)
    ensures ParseIso(s) == Some(t) <==> s == IsoFormat(t)
  {
    ParseIsoFormat(t);
  }

  /** Reading back the text `isoformat` writes gives the same timestamp. */
  lemma ParseIsoFormat(t: Timestamp)
    ensures ParseIso(IsoFormat(t)) == Some(t)
  {
    var s := IsoFormat(t);
    assert s[0..4] == Digits(t.year, 4);
    assert s[5..7] == Digits(t.month, 2);
    assert s[8..10] == Digits(t.day, 2);
    assert s[11..13] == Digits(t.hour, 2);
    assert s[14..16] == Digits(t.minute, 2);
    assert s[17..19] == Digits(t.second, 2);
    assert Pow10(2) == 100 && Pow10(4) == 10000;
    DigitsRoundTrip(t.year, 4);
    DigitsRoundTrip(t.month, 2);
    DigitsRoundTrip(t.day, 2);
    DigitsRoundTrip(t.hour, 2);
    DigitsRoundTrip(t.minute, 2);
    DigitsRoundTrip(t.second, 2);
  }

  // ----- Epoch seconds -----

  /**
   * The year holding the day `days` days after 1 January of `year`, and the
   * day's zero-based position within that year.
   */
  function YearOf(year: int, days: int): (r: (int, int))
    ensures 0 <= r.1 < DaysInYear(r.0)
    decreases if days < 0 then 400 - days else days
  {
    if days < 0 then YearOf(year - 1, days + DaysInYear(year - 1))
    else if days < DaysInYear(year) then (year, days)
    else YearOf(year + 1, days - DaysInYear(year))
  }

  /** Days in the months `month` to December of `year`. */
  function DaysFrom(year: int, month: int): int
    requires 1 <= month <= 12
    decreases 12 - month
  {
    if month == 12 then 31 else DaysInMonth(year, month) + DaysFrom(year, month + 1)
  }

  lemma DaysFromJanuary(year: int)
    ensures DaysFrom(year, 1) == DaysInYear(year)
  {
    assert DaysFrom(year, 12) == 31;
    assert DaysFrom(year, 11) == 61;
    assert DaysFrom(year, 10) == 92;
    assert DaysFrom(year, 9) == 122;
    assert DaysFrom(year, 8) == 153;
    assert DaysFrom(year, 7) == 184;
    assert DaysFrom(year, 6) == 214;
    assert DaysFrom(year, 5) == 245;
    assert DaysFrom(year, 4) == 275;
    assert DaysFrom(year, 3) == 306;
  }

  /** The month holding the zero-based day `day` counted from the first of `month`, and the day within it. */
  function MonthOf(year: int, month: int, day: int): (r: (int, int))
    requires 1 <= month <= 12 && 0 <= day < DaysFrom(year, month)
    ensures 1 <= r.0 <= 12 && 0 <= r.1 < DaysInMonth(year, r.0)
    decreases 12 - month
  {
    if month == 12 || day < DaysInMonth(year, month) then (month, day)
    else MonthOf(year, month + 1, day - DaysInMonth(year, month))
  }

  // ----- An independent day count -----

  /** Days from 1 January 1970 to 1 January of `y`, counted year by year (negative before 1970). */
  function YearStart(y: int): int
    decreases if y < 1970 then 1970 - y else y - 1970
  {
    if y == 1970 then 0
    else if y > 1970 then YearStart(y - 1) + DaysInYear(y - 1)
    else YearStart(y + 1) - DaysInYear(y)
  }

  /** Days from 1 January of `y` to the first of month `m`. */
  function MonthStart(y: int, m: int): int
    requires 1 <= m <= 12
  {
    if m == 1 then 0 else MonthStart(y, m - 1) + DaysInMonth(y, m - 1)
  }

  /** Days from 1 January 1970 to the date of `t`. */
  function DaysSinceEpoch(t: DateTime): int
    requires 1 <= t.month <= 12
  {
    YearStart(t.year) + MonthStart(t.year, t.month) + t.day - 1
  }

  /** The POSIX time, in UTC, that `t` denotes. */
  function EpochSeconds(t: DateTime): int
    requires 1 <= t.month <= 12
  {
    DaysSinceEpoch(t) * 86400 + t.hour * 3600 + t.minute * 60 + t.second
  }

  /** Earliest and latest POSIX seconds of years 1 to 9999. */
  const MinEpoch := -62135596800
  const MaxEpoch := 253402300799

  lemma YearStartStep(y: int)
    ensures YearStart(y + 1) == YearStart(y) + DaysInYear(y)
  {
  }

  lemma {:induction false} YearStartMonotone(a: int, b: int)
    requires a <= b
    ensures YearStart(a) <= YearStart(b)
    decreases b - a
  {
    if a < b {
      YearStartMonotone(a, b - 1);
      YearStartStep(b - 1);
    }
  }

  /** Leap years among 1 to `n` (extended to all `n` by the same formula). */
  function LeapsThrough(n: int): int {
    n / 4 - n / 100 + n / 400
  }

  lemma QuarterStep(n: int)
    ensures n / 4 - (n - 1) / 4 == if n % 4 == 0 then 1 else 0
  {
  }

  lemma CenturyStep(n: int)
    ensures n / 100 - (n - 1) / 100 == if n % 100 == 0 then 1 else 0
  {
  }

  lemma QuadCenturyStep(n: int)
    ensures n / 400 - (n - 1) / 400 == if n % 400 == 0 then 1 else 0
  {
  }

  lemma CenturyIsQuarter(n: int)
    requires n % 100 == 0
    ensures n % 4 == 0
  {
    assert n == 4 * (25 * (n / 100));
  }

  lemma QuadCenturyIsCentury(n: int)
    requires n % 400 == 0
    ensures n % 100 == 0
  {
    assert n == 100 * (4 * (n / 400));
  }

  lemma LeapsStep(n: int)
    ensures LeapsThrough(n) - LeapsThrough(n - 1) == if IsLeapYear(n) then 1 else 0
  {
    QuarterStep(n);
    CenturyStep(n);
    QuadCenturyStep(n);
    if n % 400 == 0 {
      QuadCenturyIsCentury(n);
      CenturyIsQuarter(n);
    } else if n % 100 == 0 {
      CenturyIsQuarter(n);
    }
  }

  /** The year-by-year count in closed form. */
  lemma {:induction false} YearStartClosed(y: int)
    ensures YearStart(y) == 365 * (y - 1970) + LeapsThrough(y - 1) - LeapsThrough(1969)
    decreases if y < 1970 then 1970 - y else y - 1970
  {
    if y > 1970 {
      YearStartClosed(y - 1);
      LeapsStep(y - 1);
    } else if y < 1970 {
      YearStartClosed(y + 1);
      LeapsStep(y);
    }
  }

  /** `YearOf` finds the year and day whose count from 1970 is the given one. */
  lemma {:induction false} YearOfStart(year: int, days: int)
    ensures YearStart(YearOf(year, days).0) + YearOf(year, days).1 == YearStart(year) + days
    decreases if days < 0 then 400 - days else days
  {
    if days < 0 {
      YearOfStart(year - 1, days + DaysInYear(year - 1));
      YearStartStep(year - 1);
    } else if days >= DaysInYear(year) {
      YearOfStart(year + 1, days - DaysInYear(year));
      YearStartStep(year);
    }
  }

  /** `MonthOf` finds the month and day whose count from January is the given one. */
  lemma {:induction false} MonthOfStart(year: int, month: int, day: int)
    requires 1 <= month <= 12 && 0 <= day < DaysFrom(year, month)
    ensures MonthStart(year, MonthOf(year, month, day).0) + MonthOf(year, month, day).1
         == MonthStart(year, month) + day
    decreases 12 - month
  {
    if !(month == 12 || day < DaysInMonth(year, month)) {
      MonthOfStart(year, month + 1, day - DaysInMonth(year, month));
    }
  }

  /** The year holding day `d` after the epoch lies in 1..9999 exactly when `d` does. */
  lemma EpochDayYear(d: int)
    ensures YearStart(YearOf(1970, d).0) + YearOf(1970, d).1 == d
    ensures 1 <= YearOf(1970, d).0 <= 9999 <==> YearStart(1) <= d < YearStart(10000)
  {
    var (year, k) := YearOf(1970, d);
    YearOfStart(1970, d);
    YearStartStep(year);
    if 1 <= year {
      YearStartMonotone(1, year);
    } else {
      YearStartMonotone(year + 1, 1);
    }
    if year <= 9999 {
      YearStartMonotone(year + 1, 10000);
    } else {
      YearStartMonotone(10000, year);
    }
  }

  lemma EpochRange(secs: int)
    ensures YearStart(1) <= secs / 86400 < YearStart(10000) <==> MinEpoch <= secs <= MaxEpoch
  {
    YearStartClosed(1);
    YearStartClosed(10000);
    assert YearStart(1) == -719162;
    assert YearStart(10000) == 2932897;
  }

  /** The timestamp of the zero-based day `k` of `year`, `rem` seconds after midnight. */
  function CalendarDay(year: int, k: int, rem: int): (t: Timestamp)
    requires 1 <= year <= 9999 && 0 <= k < DaysInYear(year) && 0 <= rem < 86400
    ensures t.year == year
    ensures MonthStart(year, t.month) + t.day - 1 == k
    ensures t.hour * 3600 + t.minute * 60 + t.second == rem
  {
    DaysFromJanuary(year);
    MonthOfStart(year, 1, k);
    var (month, day) := MonthOf(year, 1, k);
    DateTime(year, month, day + 1, rem / 3600, rem % 3600 / 60, rem % 60)
  }

  /**
   * `datetime.fromtimestamp(secs)`, taken in UTC: None where Python raises
   * because the year falls outside 1 to 9999.
   */
  function FromEpoch(secs: int): (r: Option<Timestamp>)
    ensures r.Some? <==> MinEpoch <= secs <= MaxEpoch
    ensures r.Some? ==> EpochSeconds(r.value) == secs
    ensures r.Some? ==> r.value.hour * 3600 + r.value.minute * 60 + r.value.second == secs % 86400
  {
    EpochDayYear(secs / 86400);
    EpochRange(secs);
    var (year, dayOfYear) := YearOf(1970, secs / 86400);
    if 1 <= year <= 9999 then Some(CalendarDay(year, dayOfYear, secs % 86400)) else None
  }

  // ----- Reading back the seconds a timestamp denotes -----

  lemma {:induction false} MonthStartMonotone(y: int, a: int, b: int)
    requires 1 <= a <= b <= 12
    ensures MonthStart(y, a) <= MonthStart(y, b)
    decreases b - a
  {
    if a < b {
      MonthStartMonotone(y, a, b - 1);
    }
  }

  /** The months before `m` and those from `m` on make up the year. */
  lemma {:induction false} MonthStartDaysFrom(y: int, m: int)
    requires 1 <= m <= 12
    ensures MonthStart(y, m) + DaysFrom(y, m) == DaysInYear(y)
  {
    if m == 1 {
      DaysFromJanuary(y);
    } else {
      MonthStartDaysFrom(y, m - 1);
    }
  }

  /** A day count from 1970 names one year and one day within it. */
  lemma SameYear(y: int, k: int, y2: int, k2: int)
    requires 0 <= k < DaysInYear(y) && 0 <= k2 < DaysInYear(y2)
    requires YearStart(y) + k == YearStart(y2) + k2
    ensures y == y2 && k == k2
  {
    if y < y2 {
      YearStartStep(y);
      YearStartMonotone(y + 1, y2);
    } else if y2 < y {
      YearStartStep(y2);
      YearStartMonotone(y2 + 1, y);
    }
  }

  /** A day count within a year names one month and one day within it. */
  lemma SameMonth(y: int, m: int, d: int, m2: int, d2: int)
    requires 1 <= m <= 12 && 1 <= m2 <= 12
    requires 0 <= d < DaysInMonth(y, m) && 0 <= d2 < DaysInMonth(y, m2)
    requires MonthStart(y, m) + d == MonthStart(y, m2) + d2
    ensures m == m2 && d == d2
  {
    if m < m2 {
      MonthStartMonotone(y, m + 1, m2);
    } else if m2 < m {
      MonthStartMonotone(y, m2 + 1, m);
    }
  }

  /** A timestamp's day within its year. */
  lemma DayOfYearBounds(t: Timestamp)
    ensures 0 <= MonthStart(t.year, t.month) + t.day - 1 < DaysInYear(t.year)
  {
    MonthStartMonotone(t.year, 1, t.month);
    MonthStartDaysFrom(t.year, t.month);
  }

  /** Seconds split into whole days and the seconds left over. */
  lemma SplitSeconds(days: int, tod: int)
    requires 0 <= tod < 86400
    ensures (days * 86400 + tod) / 86400 == days && (days * 86400 + tod) % 86400 == tod
  {
  }

  /** Every valid timestamp denotes seconds within years 1 to 9999. */
  lemma EpochSecondsRange(t: Timestamp)
    ensures MinEpoch <= EpochSeconds(t) <= MaxEpoch
  {
    DayOfYearBounds(t);
    YearStartMonotone(1, t.year);
    YearStartStep(t.year);
    YearStartMonotone(t.year + 1, 10000);
    SplitSeconds(DaysSinceEpoch(t), t.hour * 3600 + t.minute * 60 + t.second);
    EpochRange(EpochSeconds(t));
  }

  /** Distinct valid timestamps denote distinct seconds. */
  lemma EpochSecondsInjective(t: Timestamp, u: Timestamp)
    requires EpochSeconds(t) == EpochSeconds(u)
    ensures t == u
  {
    SplitSeconds(DaysSinceEpoch(t), t.hour * 3600 + t.minute * 60 + t.second);
    SplitSeconds(DaysSinceEpoch(u), u.hour * 3600 + u.minute * 60 + u.second);
    DayOfYearBounds(t);
    DayOfYearBounds(u);
    SameYear(t.year, MonthStart(t.year, t.month) + t.day - 1, u.year, MonthStart(u.year, u.month) + u.day - 1);
    SameMonth(t.year, t.month, t.day - 1, u.month, u.day - 1);
    TimeOfDayUnique(t.hour, t.minute, t.second, u.hour, u.minute, u.second);
  }

  /** Converting the seconds a timestamp denotes gives that timestamp back. */
  lemma FromEpochSeconds(t: Timestamp)
    ensures FromEpoch(EpochSeconds(t)) == Some(t)
  {
    EpochSecondsRange(t);
    var r := FromEpoch(EpochSeconds(t));
    EpochSecondsInjective(r.value, t);
  }

  /** A time of day in seconds names one hour, minute and second. */
  lemma TimeOfDayUnique(h: int, m: int, s: int, h2: int, m2: int, s2: int)
    requires 0 <= h < 24 && 0 <= m < 60 && 0 <= s < 60
    requires 0 <= h2 < 24 && 0 <= m2 < 60 && 0 <= s2 < 60
    requires h * 3600 + m * 60 + s == h2 * 3600 + m2 * 60 + s2
    ensures h == h2 && m == m2 && s == s2
  {
  }
}
