// Proleptic Gregorian calendar arithmetic: the specification of the C
// library's gmtime_r / mktime (in UTC) that the firmware relies on, the
// month-length table and the leap-year rule of the local-time patch, and
// the broken-down time record `struct tm`.
module Civil {

  const SecsPerMin := 60
  const SecsPerHour := 3600
  const SecsPerDay := 86400
  const EpochYear := 1970
  const EpochWday := 4
  const YearBase := 1900

  /** C's truncating division and remainder (C99 6.5.5), for a non-zero divisor. */
  function CDiv(a: int, b: int): (q: int)
    requires b != 0
    ensures b > 0 && a >= 0 ==> q == a / b
  {
    if (a >= 0) == (b > 0) || a % b == 0 then a / b
    else a / b + 1
  }

  function CMod(a: int, b: int): (r: int)
    requires b != 0
    ensures a == CDiv(a, b) * b + r
    ensures b > 0 && a >= 0 ==> 0 <= r < b
    ensures b > 0 && a < 0 ==> -b < r <= 0
  {
    a - CDiv(a, b) * b
  }

  /** The 4/100/400 leap-year rule. */
  predicate IsLeap(y: int) {
    (y % 4 == 0 && y % 100 != 0) || y % 400 == 0
  }

  /** _patch_month_lengths: the two month-length rows, common and leap year. */
  const MonthLengths: seq<seq<int>> :=
    [[31, 28, 31, 30, 31, 30, 31, 31, 30, 31, 30, 31],
     [31, 29, 31, 30, 31, 30, 31, 31, 30, 31, 30, 31]]

  function LeapIndex(y: int): (k: int)
    ensures k == 0 || k == 1
    ensures k == 1 <==> IsLeap(y)
  {
    if IsLeap(y) then 1 else 0
  }

  function MonthLength(y: int, m: int): (len: int)
    requires 0 <= m < 12
    ensures 28 <= len <= 31
    ensures len == 29 <==> m == 1 && IsLeap(y)
  {
    MonthLengths[LeapIndex(y)][m]
  }

  function YearLength(y: int): int {
    if IsLeap(y) then 366 else 365
  }

  /** Days from 0001-01-01 to 1 January of year y (floor division, so any y). */
  function DaysToYear(y: int): int {
    365 * (y - 1) + (y - 1) / 4 - (y - 1) / 100 + (y - 1) / 400
  }

  /** Days from 1970-01-01 to 1 January of year y. */
  function YearStart(y: int): int {
    DaysToYear(y) - DaysToYear(EpochYear)
  }

  lemma FloorStep4(a: int)
    ensures (a + 1) / 4 == a / 4 + (if (a + 1) % 4 == 0 then 1 else 0)
  {
  }

  lemma FloorStep100(a: int)
    ensures (a + 1) / 100 == a / 100 + (if (a + 1) % 100 == 0 then 1 else 0)
  {
  }

  lemma FloorStep400(a: int)
    ensures (a + 1) / 400 == a / 400 + (if (a + 1) % 400 == 0 then 1 else 0)
  {
  }

  lemma YearStartStep(y: int)
    ensures YearStart(y + 1) == YearStart(y) + YearLength(y)
  {
    FloorStep4(y - 1);
    FloorStep100(y - 1);
    FloorStep400(y - 1);
    assert DaysToYear(y + 1) - DaysToYear(y)
      == 365 + (y / 4 - (y - 1) / 4) - (y / 100 - (y - 1) / 100) + (y / 400 - (y - 1) / 400);
  }

  /** Splitting a second of the day into hour, minute and second. */
  lemma SplitDaySeconds(rem: int)
    requires 0 <= rem < SecsPerDay
    ensures 0 <= rem / 3600 < 24 && 0 <= rem % 3600 / 60 < 60 && 0 <= rem % 60 < 60
    ensures rem / 3600 * SecsPerHour + rem % 3600 / 60 * SecsPerMin + rem % 60 == rem
  {
    var h, r := rem / 3600, rem % 3600;
    assert rem == h * 3600 + r;
    assert r == r / 60 * 60 + r % 60;
    assert rem % 60 == r % 60;
  }

  lemma {:induction false} YearStartMonotone(a: int, b: int)
    requires a <= b
    ensures YearStart(a) + 365 * (b - a) <= YearStart(b)
    decreases b - a
  {
    if a < b {
      YearStartMonotone(a, b - 1);
      YearStartStep(b - 1);
    }
  }

  /** Cumulative month lengths, common and leap year. */
  const DaysBefore: seq<seq<int>> :=
    [[0, 31, 59, 90, 120, 151, 181, 212, 243, 273, 304, 334, 365],
     [0, 31, 60, 91, 121, 152, 182, 213, 244, 274, 305, 335, 366]]

  /** Days of year y before the first day of month m (0 <= m <= 12). */
  function DaysBeforeMonth(y: int, m: int): int
    requires 0 <= m <= 12
  {
    DaysBefore[LeapIndex(y)][m]
  }

  /** The cumulative table is the running sum of the month lengths. */
  lemma DaysBeforeMonthStep(y: int, m: int)
    requires 0 <= m < 12
    ensures DaysBeforeMonth(y, m + 1) == DaysBeforeMonth(y, m) + MonthLength(y, m)
  {
  }

  lemma DaysBeforeYearEnd(y: int)
    ensures DaysBeforeMonth(y, 0) == 0
    ensures DaysBeforeMonth(y, 12) == YearLength(y)
  {
  }

  lemma DaysBeforeMonthMonotone(y: int, a: int, b: int)
    requires 0 <= a <= b <= 12
    ensures DaysBeforeMonth(y, a) <= DaysBeforeMonth(y, b)
  {
  }

  /** Days from 1970-01-01 to the civil date (y, mon 0..11, mday from 1). */
  function DaysFromCivil(y: int, mon: int, mday: int): int
    requires 0 <= mon < 12
  {
    YearStart(y) + DaysBeforeMonth(y, mon) + mday - 1
  }

  /**
   * The last day of month mon is a valid date, and the day after it is the
   * first of the next month or, after 31 December, 1 January of the next year.
   */
  lemma MonthTurn(y: int, mon: int)
    requires 0 <= mon < 12
    ensures DaysBeforeMonth(y, mon + 1) == DaysBeforeMonth(y, mon) + MonthLength(y, mon)
    ensures ValidDate(Date(y, mon, MonthLength(y, mon), DaysBeforeMonth(y, mon + 1) - 1))
    ensures mon < 11 ==> ValidDate(Date(y, mon + 1, 1, DaysBeforeMonth(y, mon + 1)))
    ensures mon < 11 ==> DaysFromCivil(y, mon + 1, 1) == DaysFromCivil(y, mon, MonthLength(y, mon)) + 1
    ensures mon == 11 ==> MonthLength(y, mon) == 31 && DaysBeforeMonth(y, 12) - 1 == 364 + LeapIndex(y)
    ensures mon == 11 ==> DaysFromCivil(y + 1, 0, 1) == DaysFromCivil(y, mon, MonthLength(y, mon)) + 1
  {
    DaysBeforeMonthStep(y, mon);
    DaysBeforeYearEnd(y);
    YearStartStep(y);
  }

  // ---- civil from days -------------------------------------------------

  function YearUp(days: int, y: int): (r: int)
    requires YearStart(y) <= days
    ensures YearStart(r) <= days < YearStart(r + 1)
    decreases days - YearStart(y)
  {
    YearStartStep(y);
    if days < YearStart(y + 1) then y else YearUp(days, y + 1)
  }

  function YearDown(days: int, y: int): (r: int)
    requires days < YearStart(y + 1)
    ensures YearStart(r) <= days < YearStart(r + 1)
    decreases YearStart(y + 1) - days
  {
    YearStartStep(y);
    if YearStart(y) <= days then y else YearDown(days, y - 1)
  }

  /** The year whose days contain the given day number. */
  function YearOfDay(days: int): (y: int)
    ensures YearStart(y) <= days < YearStart(y + 1)
  {
    if days >= 0 then YearUp(days, EpochYear) else YearDown(days, EpochYear - 1)
  }

  lemma YearOfDayUnique(days: int, y: int)
    requires YearStart(y) <= days < YearStart(y + 1)
    ensures YearOfDay(days) == y
  {
    var r := YearOfDay(days);
    if r < y {
      YearStartMonotone(r + 1, y);
    } else if y < r {
      YearStartMonotone(y + 1, r);
    }
  }

  function MonthFrom(y: int, doy: int, m: int): (r: int)
    requires 0 <= m < 12
    requires DaysBeforeMonth(y, m) <= doy < YearLength(y)
    ensures m <= r < 12
    ensures DaysBeforeMonth(y, r) <= doy < DaysBeforeMonth(y, r + 1)
    decreases 12 - m
  {
    DaysBeforeYearEnd(y);
    if doy < DaysBeforeMonth(y, m + 1) then m else MonthFrom(y, doy, m + 1)
  }

  lemma MonthFromUnique(y: int, doy: int, m: int)
    requires 0 <= m < 12
    requires DaysBeforeMonth(y, m) <= doy < DaysBeforeMonth(y, m + 1)
    ensures DaysBeforeMonth(y, 0) <= doy < YearLength(y)
    ensures MonthFrom(y, doy, 0) == m
  {
    DaysBeforeYearEnd(y);
    DaysBeforeMonthMonotone(y, m + 1, 12);
    var r := MonthFrom(y, doy, 0);
    if r < m {
      DaysBeforeMonthMonotone(y, r + 1, m);
    } else if m < r {
      DaysBeforeMonthMonotone(y, m + 1, r);
    }
  }

  // ---- struct tm ---------------------------------------------------------

  /** The C `struct tm`: year counts from 1900, mon from 0, wday from Sunday = 0. */
  datatype Tm = Tm(sec: int, min: int, hour: int, mday: int, mon: int,
                   year: int, wday: int, yday: int, isdst: int)

  /** Fields in range and mutually consistent (yday, wday agree with the date). */
  predicate ValidTm(tm: Tm) {
    0 <= tm.sec < 60 && 0 <= tm.min < 60 && 0 <= tm.hour < 24 && ValidTmDate(tm)
  }

  /** The date fields in range and mutually consistent. */
  predicate ValidTmDate(tm: Tm) {
    ValidDate(DateOf(tm)) && tm.wday == (DaysFromCivil(tm.year + YearBase, tm.mon, tm.mday) + EpochWday) % 7
  }

  /** The calendar date of a broken-down time. */
  function DateOf(tm: Tm): Date {
    Date(tm.year + YearBase, tm.mon, tm.mday, tm.yday)
  }

  /** Seconds since the epoch of a broken-down UTC time (mktime under UTC). */
  function TmToEpoch(tm: Tm): int
    requires 0 <= tm.mon < 12
  {
    DaysFromCivil(tm.year + YearBase, tm.mon, tm.mday) * SecsPerDay
      + tm.hour * SecsPerHour + tm.min * SecsPerMin + tm.sec
  }

  /** The daylight flag takes no part in validity or in the instant a record denotes. */
  lemma IsdstIrrelevant(tm: Tm, isdst: int)
    requires ValidTm(tm)
    ensures ValidTm(tm.(isdst := isdst)) && TmToEpoch(tm.(isdst := isdst)) == TmToEpoch(tm)
  {
    assert DateOf(tm.(isdst := isdst)) == DateOf(tm);
  }

  /** Changing the time of day keeps the date valid and moves the instant by the difference. */
  lemma ClockIrrelevant(tm: Tm, sec: int, min: int, hour: int)
    requires ValidTmDate(tm)
    ensures ValidTmDate(tm.(sec := sec, min := min, hour := hour))
    ensures TmToEpoch(tm.(sec := sec, min := min, hour := hour)) - (hour * SecsPerHour + min * SecsPerMin + sec)
         == TmToEpoch(tm) - (tm.hour * SecsPerHour + tm.min * SecsPerMin + tm.sec)
  {
    assert DateOf(tm.(sec := sec, min := min, hour := hour)) == DateOf(tm);
  }

  /**
   * A record moved one day forward (k = 1) or back (k = -1) to the valid date
   * e, with the weekday stepped alike, is valid and k days later.
   */
  lemma DayStepRecord(g: Tm, r: Tm, e: Date, k: int)
    requires k == 1 || k == -1
    requires ValidTmDate(g) && ValidDate(e)
    requires DaysFromCivil(e.year, e.mon, e.mday) == DaysFromCivil(DateOf(g).year, DateOf(g).mon, DateOf(g).mday) + k
    requires r == g.(mday := e.mday, mon := e.mon, year := e.year - YearBase, yday := e.yday, wday := (g.wday + k) % 7)
    ensures ValidTmDate(r) && DateOf(r) == e
    ensures TmToEpoch(r) == TmToEpoch(g) + k * SecsPerDay
  {
    var days := DaysFromCivil(g.year + YearBase, g.mon, g.mday);
    assert r.year + YearBase == e.year;
    assert DaysFromCivil(r.year + YearBase, r.mon, r.mday) == days + k;
    WeekdayStep(days, g.wday, k);
    assert DateOf(r) == e;
    EpochOfDayShift(g, r, k);
  }

  /** Records with the same time of day are whole days apart as their dates are. */
  lemma EpochOfDayShift(a: Tm, b: Tm, k: int)
    requires 0 <= a.mon < 12 && 0 <= b.mon < 12
    requires a.sec == b.sec && a.min == b.min && a.hour == b.hour
    requires DaysFromCivil(b.year + YearBase, b.mon, b.mday) == DaysFromCivil(a.year + YearBase, a.mon, a.mday) + k
    ensures TmToEpoch(b) == TmToEpoch(a) + k * SecsPerDay
  {
  }

  /** The weekday of the next and of the previous day. */
  lemma WeekdayStep(days: int, w: int, k: int)
    requires k == 1 || k == -1
    requires w == (days + EpochWday) % 7
    ensures (w + k) % 7 == (days + k + EpochWday) % 7
  {
    var q := (days + EpochWday) / 7;
    assert days + EpochWday == 7 * q + w;
    assert days + k + EpochWday == 7 * q + (w + k);
  }

  /** A calendar date: year, month 0..11, day of month from 1, day of year from 0. */
  datatype Date = Date(year: int, mon: int, mday: int, yday: int)

  predicate ValidDate(d: Date) {
    && 0 <= d.mon < 12
    && 1 <= d.mday <= MonthLength(d.year, d.mon)
    && d.yday == DaysBeforeMonth(d.year, d.mon) + d.mday - 1
  }

  /** The date after d: the next day of the month, else the first of the next month or year. */
  function NextDate(d: Date): (e: Date)
    requires ValidDate(d)
    ensures ValidDate(e)
    ensures DaysFromCivil(e.year, e.mon, e.mday) == DaysFromCivil(d.year, d.mon, d.mday) + 1
  {
    if d.mday < MonthLength(d.year, d.mon) then Date(d.year, d.mon, d.mday + 1, d.yday + 1)
    else if d.mon < 11 then
      MonthTurn(d.year, d.mon);
      Date(d.year, d.mon + 1, 1, DaysBeforeMonth(d.year, d.mon + 1))
    else
      MonthTurn(d.year, 11);
      Date(d.year + 1, 0, 1, 0)
  }

  /**
   * The date before d: the previous day of the month, else the last day of
   * the previous month, or 31 December (day 364 or 365) of the prior year.
   */
  function PreviousDate(d: Date): (e: Date)
    requires ValidDate(d)
    ensures ValidDate(e)
    ensures DaysFromCivil(e.year, e.mon, e.mday) == DaysFromCivil(d.year, d.mon, d.mday) - 1
    ensures d.mon == 0 && d.mday == 1 ==> e == Date(d.year - 1, 11, 31, 364 + LeapIndex(d.year - 1))
  {
    if d.mday > 1 then Date(d.year, d.mon, d.mday - 1, d.yday - 1)
    else if d.mon > 0 then
      MonthTurn(d.year, d.mon - 1);
      Date(d.year, d.mon - 1, MonthLength(d.year, d.mon - 1), DaysBeforeMonth(d.year, d.mon) - 1)
    else
      MonthTurn(d.year - 1, 11);
      Date(d.year - 1, 11, 31, 364 + LeapIndex(d.year - 1))
  }

  /** The civil date of a day number counted from 1970-01-01. */
  function CivilFromDays(days: int): (d: Date)
    ensures ValidDate(d)
    ensures DaysFromCivil(d.year, d.mon, d.mday) == days
  {
    var y := YearOfDay(days);
    YearStartStep(y);
    DayOfYear(y, days - YearStart(y))
  }

  /** The civil date of day `doy` (from 0) of year y. */
  function DayOfYear(y: int, doy: int): (d: Date)
    requires 0 <= doy < YearLength(y)
    ensures ValidDate(d) && d.year == y && d.yday == doy
    ensures DaysFromCivil(d.year, d.mon, d.mday) == YearStart(y) + doy
  {
    DaysBeforeYearEnd(y);
    var mon := MonthFrom(y, doy, 0);
    DaysBeforeMonthStep(y, mon);
    Date(y, mon, doy - DaysBeforeMonth(y, mon) + 1, doy)
  }

  /** A valid date is the civil date of its own day number. */
  lemma CivilFromDaysOfCivil(d: Date)
    requires ValidDate(d)
    ensures CivilFromDays(DaysFromCivil(d.year, d.mon, d.mday)) == d
  {
    DateOfYearDay(d);
    DaysBeforeMonthStep(d.year, d.mon);
    DaysBeforeMonthMonotone(d.year, d.mon + 1, 12);
    DaysBeforeYearEnd(d.year);
    CivilFromYearDay(d.year, d.yday);
  }

  /** A valid date is the date of its own day of year. */
  lemma DateOfYearDay(d: Date)
    requires ValidDate(d)
    ensures 0 <= d.yday < YearLength(d.year) && DayOfYear(d.year, d.yday) == d
    ensures DaysFromCivil(d.year, d.mon, d.mday) == YearStart(d.year) + d.yday
  {
    DaysBeforeMonthStep(d.year, d.mon);
    DaysBeforeMonthMonotone(d.year, d.mon + 1, 12);
    DaysBeforeYearEnd(d.year);
    MonthFromUnique(d.year, d.yday, d.mon);
  }

  /** Day `doy` of year y, counted from 1970, has the civil date DayOfYear(y, doy). */
  lemma CivilFromYearDay(y: int, doy: int)
    requires 0 <= doy < YearLength(y)
    ensures CivilFromDays(YearStart(y) + doy) == DayOfYear(y, doy)
  {
    YearStartStep(y);
    YearOfDayUnique(YearStart(y) + doy, y);
  }

  /** The UTC record of day number `days` (civil date d) at second `rem` of the day. */
  function RecordOf(d: Date, days: int, rem: int): Tm {
    Tm(rem % 60, rem % 3600 / 60, rem / 3600, d.mday, d.mon, d.year - YearBase,
       (days + EpochWday) % 7, d.yday, 0)
  }

  /** gmtime_r: the broken-down UTC time of t seconds since the epoch. */
  function Gmtime(t: int): (tm: Tm)
    ensures ValidTm(tm) && tm.isdst == 0
    ensures TmToEpoch(tm) == t
  {
    var days, rem := t / SecsPerDay, t % SecsPerDay;
    RecordOfValid(CivilFromDays(days), days, rem);
    RecordOf(CivilFromDays(days), days, rem)
  }

  /** The record of a valid date, its day number and a second of the day is valid. */
  lemma RecordOfValid(d: Date, days: int, rem: int)
    requires ValidDate(d) && days == DaysFromCivil(d.year, d.mon, d.mday)
    requires 0 <= rem < SecsPerDay
    ensures ValidTm(RecordOf(d, days, rem)) && RecordOf(d, days, rem).isdst == 0
    ensures TmToEpoch(RecordOf(d, days, rem)) == days * SecsPerDay + rem
  {
    SplitDaySeconds(rem);
    assert DateOf(RecordOf(d, days, rem)) == d;
  }

  lemma JoinDaySeconds(days: int, h: int, m: int, s: int)
    requires 0 <= h < 24 && 0 <= m < 60 && 0 <= s < 60
    ensures (days * SecsPerDay + h * SecsPerHour + m * SecsPerMin + s) / SecsPerDay == days
    ensures (days * SecsPerDay + h * SecsPerHour + m * SecsPerMin + s) % SecsPerDay
            == h * SecsPerHour + m * SecsPerMin + s
    ensures (h * SecsPerHour + m * SecsPerMin + s) / 3600 == h
    ensures (h * SecsPerHour + m * SecsPerMin + s) % 3600 / 60 == m
    ensures (h * SecsPerHour + m * SecsPerMin + s) % 60 == s
  {
    var r := h * SecsPerHour + m * SecsPerMin + s;
    assert 0 <= r < SecsPerDay;
    assert r % 3600 == m * 60 + s;
  }

  /** gmtime inverts mktime: a valid UTC record is the only one for its instant. */
  lemma GmtimeOfEpoch(tm: Tm)
    requires ValidTm(tm)
    ensures Gmtime(TmToEpoch(tm)) == tm.(isdst := 0)
  {
    var d := DateOf(tm);
    var days := DaysFromCivil(d.year, d.mon, d.mday);
    var rem := tm.hour * SecsPerHour + tm.min * SecsPerMin + tm.sec;
    var t := TmToEpoch(tm);
    assert t == days * SecsPerDay + rem;
    JoinDaySeconds(days, tm.hour, tm.min, tm.sec);
    GmtimeSplit(t, days, rem);
    CivilFromDaysOfCivil(d);
    RecordOfDate(tm, days, rem);
  }

  /** The record built from a valid record's own date, day number and second of day. */
  lemma RecordOfDate(tm: Tm, days: int, rem: int)
    requires ValidTm(tm)
    requires days == DaysFromCivil(tm.year + YearBase, tm.mon, tm.mday)
    requires rem == tm.hour * SecsPerHour + tm.min * SecsPerMin + tm.sec
    requires rem % 60 == tm.sec && rem % 3600 / 60 == tm.min && rem / 3600 == tm.hour
    ensures RecordOf(DateOf(tm), days, rem) == tm.(isdst := 0)
  {
  }

  /** gmtime_r splits the instant into a day number and a second of the day. */
  lemma GmtimeSplit(t: int, days: int, rem: int)
    requires t / SecsPerDay == days && t % SecsPerDay == rem
    ensures Gmtime(t) == RecordOf(CivilFromDays(days), days, rem)
  {
  }

  /** A valid record with instant t is gmtime_r of t, up to the daylight flag. */
  lemma GmtimeUnique(tm: Tm, t: int)
    requires ValidTm(tm) && TmToEpoch(tm) == t
    ensures tm == Gmtime(t).(isdst := tm.isdst)
  {
    GmtimeOfEpoch(tm);
  }
}
