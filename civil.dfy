/**
 * Civil time: the proleptic Gregorian calendar and instants counted in whole
 * minutes. Every timestamp the bot handles (an entered deadline, a stored
 * `schedule_datetime`, a reminder time, the clock) is an `Instant`; local wall
 * clocks are instants shifted by a fixed offset in minutes.
 */
module Civil {

  /** Minutes since 0000-01-01 00:00 UTC (proleptic Gregorian, year 0 is a leap year). */
  type Instant = nat

  const MinutesPerHour: nat := 60
  const MinutesPerDay: nat := 1440
  const MinutesPerWeek: nat := 10080

  predicate IsLeapYear(y: nat) {
    y % 4 == 0 && (y % 100 != 0 || y % 400 == 0)
  }

  function YearLength(y: nat): nat {
    if IsLeapYear(y) then 366 else 365
  }

  function MonthLength(y: nat, m: nat): nat
    requires 1 <= m <= 12
  {
    if m == 2 then (if IsLeapYear(y) then 29 else 28)
    else if m == 4 || m == 6 || m == 9 || m == 11 then 30
    else 31
  }

  datatype Date = Date(year: nat, month: nat, day: nat)

  /** A calendar date that exists: month 1-12 and a day within that month. */
  predicate ValidDate(d: Date) {
    1 <= d.month <= 12 && 1 <= d.day <= MonthLength(d.year, d.month)
  }

  /** Days from 0000-01-01 to the first of January of year y. */
  function DaysBeforeYear(y: nat): nat {
    if y == 0 then 0 else DaysBeforeYear(y - 1) + YearLength(y - 1)
  }

  lemma DaysBeforeYearStep(y: nat)
    ensures DaysBeforeYear(y + 1) == DaysBeforeYear(y) + YearLength(y)
  {
  }

  lemma {:induction false} DaysBeforeYearMonotone(y1: nat, y2: nat)
    requires y1 <= y2
    ensures DaysBeforeYear(y1) <= DaysBeforeYear(y2)
    decreases y2 - y1
  {
    if y1 < y2 {
      DaysBeforeYearStep(y1);
      DaysBeforeYearMonotone(y1 + 1, y2);
    }
  }

  /** Days of year y that come before the first day of month m (m = 13 means the whole year). */
  function DaysBeforeMonth(y: nat, m: nat): nat
    requires 1 <= m <= 13
  {
    var leap := if m > 2 && IsLeapYear(y) then 1 else 0;
    leap + (match m
      case 1 => 0    case 2 => 31   case 3 => 59   case 4 => 90
      case 5 => 120  case 6 => 151  case 7 => 181  case 8 => 212
      case 9 => 243  case 10 => 273 case 11 => 304 case 12 => 334
      case _ => 365)
  }

  lemma DaysBeforeMonthStep(y: nat, m: nat)
    requires 1 <= m <= 12
    ensures DaysBeforeMonth(y, m + 1) == DaysBeforeMonth(y, m) + MonthLength(y, m)
  {
  }

  lemma DaysBeforeMonthWholeYear(y: nat)
    ensures DaysBeforeMonth(y, 13) == YearLength(y)
  {
  }

  lemma DaysBeforeMonthMonotone(y: nat, m1: nat, m2: nat)
    requires 1 <= m1 <= m2 <= 13
    ensures DaysBeforeMonth(y, m1) <= DaysBeforeMonth(y, m2)
  {
  }

  /** Days since 0000-01-01 of a valid date. */
  function DayNumber(d: Date): nat
    requires ValidDate(d)
  {
    DaysBeforeYear(d.year) + DaysBeforeMonth(d.year, d.month) + d.day - 1
  }

  /** The day number lies within its year. */
  lemma DayNumberInYear(d: Date)
    requires ValidDate(d)
    ensures DaysBeforeYear(d.year) <= DayNumber(d) < DaysBeforeYear(d.year + 1)
  {
    DaysBeforeMonthStep(d.year, d.month);
    DaysBeforeMonthMonotone(d.year, d.month + 1, 13);
    DaysBeforeMonthWholeYear(d.year);
    DaysBeforeYearStep(d.year);
  }

  /** Lexicographic (year, month, day) order. */
  predicate DateBefore(a: Date, b: Date) {
    a.year < b.year
    || (a.year == b.year && a.month < b.month)
    || (a.year == b.year && a.month == b.month && a.day < b.day)
  }

  /** Day numbers are strictly increasing in calendar order. */
  lemma DayNumberStrictlyMonotone(a: Date, b: Date)
    requires ValidDate(a) && ValidDate(b) && DateBefore(a, b)
    ensures DayNumber(a) < DayNumber(b)
  {
    if a.year < b.year {
      DayNumberInYear(a);
      DayNumberInYear(b);
      DaysBeforeYearMonotone(a.year + 1, b.year);
    } else if a.month < b.month {
      DaysBeforeMonthStep(a.year, a.month);
      DaysBeforeMonthMonotone(a.year, a.month + 1, b.month);
    }
  }

  lemma DayNumberInjective(a: Date, b: Date)
    requires ValidDate(a) && ValidDate(b) && DayNumber(a) == DayNumber(b)
    ensures a == b
  {
    if DateBefore(a, b) {
      DayNumberStrictlyMonotone(a, b);
    } else if DateBefore(b, a) {
      DayNumberStrictlyMonotone(b, a);
    }
  }

  /** The year that contains day n, searching upwards from year y. */
  function FindYear(n: nat, y: nat): (r: nat)
    requires DaysBeforeYear(y) <= n
    ensures y <= r && DaysBeforeYear(r) <= n < DaysBeforeYear(r + 1)
    decreases n - DaysBeforeYear(y)
  {
    DaysBeforeYearStep(y);
    if n < DaysBeforeYear(y + 1) then y else FindYear(n, y + 1)
  }

  /** The month of year y that contains day `k` of that year, searching upwards from month m. */
  function FindMonth(y: nat, k: nat, m: nat): (r: nat)
    requires 1 <= m <= 12 && DaysBeforeMonth(y, m) <= k < YearLength(y)
    ensures m <= r <= 12 && DaysBeforeMonth(y, r) <= k < DaysBeforeMonth(y, r + 1)
    decreases 12 - m
  {
    DaysBeforeMonthWholeYear(y);
    if k < DaysBeforeMonth(y, m + 1) || m == 12 then m else FindMonth(y, k, m + 1)
  }

  /** The calendar date of day number n. */
  function DateOfDay(n: nat): (d: Date)
    ensures ValidDate(d) && DayNumber(d) == n
  {
    var y := FindYear(n, 0);
    DaysBeforeYearStep(y);
    var k := n - DaysBeforeYear(y);
    var m := FindMonth(y, k, 1);
    DaysBeforeMonthStep(y, m);
    Date(y, m, k - DaysBeforeMonth(y, m) + 1)
  }

  /** Converting a valid date to its day number and back gives the date again. */
  lemma DateOfDayNumber(d: Date)
    requires ValidDate(d)
    ensures DateOfDay(DayNumber(d)) == d
  {
    DayNumberInjective(DateOfDay(DayNumber(d)), d);
  }

  /** A wall-clock reading at minute precision. */
  datatype DateTime = DateTime(date: Date, hour: nat, minute: nat)

  predicate ValidDateTime(t: DateTime) {
    ValidDate(t.date) && t.hour < 24 && t.minute < 60
  }

  function ToInstant(t: DateTime): Instant
    requires ValidDateTime(t)
  {
    DayNumber(t.date) * 1440 + t.hour * 60 + t.minute
  }

  function FromInstant(t: Instant): (r: DateTime)
    ensures ValidDateTime(r)
  {
    var minuteOfDay := t % 1440;
    DateTime(DateOfDay(t / 1440), minuteOfDay / 60, minuteOfDay % 60)
  }

  lemma SplitDay(d: nat, r: nat)
    requires r < MinutesPerDay
    ensures (d * 1440 + r) / 1440 == d
    ensures (d * 1440 + r) % 1440 == r
  {
  }

  lemma SplitHour(h: nat, m: nat)
    requires m < MinutesPerHour
    ensures (h * 60 + m) / 60 == h
    ensures (h * 60 + m) % 60 == m
  {
  }

  lemma ToFromInstant(t: Instant)
    ensures ToInstant(FromInstant(t)) == t
  {
    var r := t % 1440;
    assert t == (t / 1440) * 1440 + r;
    assert r == (r / 60) * 60 + r % 60;
  }

  lemma FromToInstant(t: DateTime)
    requires ValidDateTime(t)
    ensures FromInstant(ToInstant(t)) == t
  {
    var n := ToInstant(t);
    var rest := t.hour * 60 + t.minute;
    assert n == DayNumber(t.date) * 1440 + rest;
    SplitDay(DayNumber(t.date), rest);
    SplitHour(t.hour, t.minute);
    DateOfDayNumber(t.date);
    assert n / 1440 == DayNumber(t.date) && n % 1440 == rest;
  }

  /** Lexicographic (date, hour, minute) order. */
  predicate DateTimeBefore(a: DateTime, b: DateTime) {
    DateBefore(a.date, b.date)
    || (a.date == b.date && a.hour < b.hour)
    || (a.date == b.date && a.hour == b.hour && a.minute < b.minute)
  }

  /** Calendar order of wall-clock readings is the order of the instants they denote. */
  lemma DateTimeOrderIsInstantOrder(a: DateTime, b: DateTime)
    requires ValidDateTime(a) && ValidDateTime(b)
    ensures DateTimeBefore(a, b) <==> ToInstant(a) < ToInstant(b)
  {
    if DateBefore(a.date, b.date) {
      DayNumberStrictlyMonotone(a.date, b.date);
    } else if DateBefore(b.date, a.date) {
      DayNumberStrictlyMonotone(b.date, a.date);
    } else {
      assert a.date == b.date;
    }
  }

  /** The first instant of year 10000: four-digit years cover exactly the instants below it. */
  const EndOfYear9999: nat := DaysBeforeYear(10000) * 1440

  lemma FourDigitYears(t: Instant)
    ensures FromInstant(t).date.year <= 9999 <==> t < EndOfYear9999
  {
    var y := FromInstant(t).date.year;
    DayNumberInYear(FromInstant(t).date);
    if y <= 9999 {
      DaysBeforeYearMonotone(y + 1, 10000);
    } else {
      DaysBeforeYearMonotone(10000, y);
    }
  }

  /** Day of the week of day number n: 0 = Sunday … 6 = Saturday (0000-01-01 was a Saturday). */
  function Weekday(n: nat): (w: nat)
    ensures w < 7
  {
    (n + 6) % 7
  }

  function WeekdayName(w: nat): string
    requires w < 7
  {
    ["Sunday", "Monday", "Tuesday", "Wednesday", "Thursday", "Friday", "Saturday"][w]
  }

  lemma WeekShift(t: nat)
    ensures (t + 10080) / 1440 == t / 1440 + 7
    ensures (t + 10080) % 1440 == t % 1440
  {
  }

  /** Moving an instant one week later keeps its weekday and its time of day. */
  lemma WeekLaterSameWeekday(t: Instant)
    ensures Weekday((t + 10080) / 1440) == Weekday(t / 1440)
    ensures FromInstant(t + 10080).hour == FromInstant(t).hour
    ensures FromInstant(t + 10080).minute == FromInstant(t).minute
  {
    WeekShift(t);
  }
}
