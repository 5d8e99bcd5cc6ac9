/**
 * The date helpers of src/lib/utils.ts: `isOverdue`, `formatDate` and
 * `daysBetween`, over JavaScript time values (integer milliseconds since
 * 1970-01-01T00:00:00Z). The calendar functions follow the definitions of
 * ECMA-262, the ECMAScript standard (section 21.4.1, "Time Values and Time
 * Range", "Year Number", "Month Number", "Date Number" and
 * "Date Time String Format"): DayFromYear, YearFromTime, MonthFromTime,
 * DateFromTime and the expanded-year form of `toISOString`.
 * Local time is taken to coincide with UTC (see README, "Left out").
 */
module Utils {
  import opened Wrappers
  import opened Text

  const MsPerDay: int := 86_400_000
  const MsPerHour: int := 3_600_000
  const MsPerMinute: int := 60_000
  const MsPerSecond: int := 1_000

  /** The largest time value a JavaScript Date can hold: 10^8 days either side of the epoch. */
  const MaxTimeValue: int := 8_640_000_000_000_000

  /** The value of a valid JavaScript Date. */
  type Time = t: int | -MaxTimeValue <= t <= MaxTimeValue

  /** The day number of `t` (days since the epoch, rounded down). */
  function DayOf(t: int): int
  {
    t / MsPerDay
  }

  /** `d.setHours(0, 0, 0, 0)` on a copy of `d`: the first millisecond of its day. */
  function StartOfDay(t: Time): (r: Time)
    ensures r <= t < r + MsPerDay
    ensures r == DayOf(t) * MsPerDay
    ensures DayOf(r) == DayOf(t)
  {
    DayOf(t) * MsPerDay
  }

  // ---------------------------------------------------------------- isOverdue

  /** `isOverdue(deadline)` evaluated at the instant `now`: both truncated to the day, compared strictly. */
  function IsOverdue(deadline: Time, now: Time): bool
  {
    StartOfDay(deadline) < StartOfDay(now)
  }

  /** Overdue exactly when the deadline's day comes before today. */
  lemma IsOverdueByDay(deadline: Time, now: Time)
    ensures IsOverdue(deadline, now) <==> DayOf(deadline) < DayOf(now)
  {
  }

  /** A deadline falling on today is never overdue. */
  lemma DueTodayIsNotOverdue(deadline: Time, now: Time)
    requires DayOf(deadline) == DayOf(now)
    ensures !IsOverdue(deadline, now)
  {
  }

  /** The time of day of the deadline, and of the clock, plays no part. */
  lemma OverdueIgnoresTimeOfDay(d1: Time, d2: Time, now1: Time, now2: Time)
    requires DayOf(d1) == DayOf(d2) && DayOf(now1) == DayOf(now2)
    ensures IsOverdue(d1, now1) == IsOverdue(d2, now2)
  {
  }

  /**
   * Truncating the deadline makes no difference: comparing the raw deadline
   * with the start of today (as `getTickets` and `getOverdueTickets` do)
   * gives the same answer as `isOverdue`.
   */
  lemma OverdueIffBeforeStartOfToday(deadline: Time, now: Time)
    ensures IsOverdue(deadline, now) <==> deadline < StartOfDay(now)
  {
    var s := StartOfDay(now);
    if deadline < s {
      assert DayOf(deadline) * MsPerDay <= deadline;
      assert DayOf(deadline) * MsPerDay < DayOf(now) * MsPerDay;
    } else {
      assert DayOf(now) * MsPerDay <= deadline;
      assert DayOf(now) <= DayOf(deadline);
    }
  }

  // -------------------------------------------------------------- daysBetween

  function Abs(x: int): nat
  {
    if x < 0 then -x else x
  }

  /** `Math.round(x)`: the nearest integer, halves rounded up. */
  function MathRound(x: real): int
  {
    (x + 0.5).Floor
  }

  /** `daysBetween(start, end)`: the absolute difference in days, rounded to the nearest whole day. */
  function DaysBetween(startDate: Time, endDate: Time): int
  {
    MathRound(Abs(endDate - startDate) as real / MsPerDay as real)
  }

  /** On integer milliseconds the rounding is exact integer arithmetic. */
  lemma DaysBetweenIsIntegerDivision(startDate: Time, endDate: Time)
    ensures DaysBetween(startDate, endDate) == (Abs(endDate - startDate) + MsPerDay / 2) / MsPerDay
  {
    var n := Abs(endDate - startDate);
    var q := (n + MsPerDay / 2) / MsPerDay;
    var r := (n + MsPerDay / 2) % MsPerDay;
    assert n + MsPerDay / 2 == q * MsPerDay + r && 0 <= r < MsPerDay;
    var x := n as real / MsPerDay as real + 0.5;
    assert x == q as real + r as real / MsPerDay as real;
    assert q as real <= x < q as real + 1.0;
  }

  lemma DaysBetweenNonNegative(startDate: Time, endDate: Time)
    ensures DaysBetween(startDate, endDate) >= 0
  {
    DaysBetweenIsIntegerDivision(startDate, endDate);
  }

  lemma DaysBetweenSymmetric(a: Time, b: Time)
    ensures DaysBetween(a, b) == DaysBetween(b, a)
  {
    assert Abs(b - a) == Abs(a - b);
  }

  lemma DaysBetweenSelf(a: Time)
    ensures DaysBetween(a, a) == 0
  {
    DaysBetweenIsIntegerDivision(a, a);
  }

  /** Exactly `k` days apart gives `k`. */
  lemma DaysBetweenWholeDays(t: Time, k: nat)
    requires -MaxTimeValue <= t + k * MsPerDay <= MaxTimeValue
    ensures DaysBetween(t, t + k * MsPerDay) == k
  {
    DaysBetweenIsIntegerDivision(t, t + k * MsPerDay);
    assert Abs(t + k * MsPerDay - t) + MsPerDay / 2 == k * MsPerDay + MsPerDay / 2;
  }

  // ----------------------------------------------------------------- calendar

  /** ECMAScript DayFromYear: the day number of January 1 of year `y`. */
  function DayFromYear(y: int): int
  {
    365 * (y - 1970) + (y - 1969) / 4 - (y - 1901) / 100 + (y - 1601) / 400
  }

  function DaysInYear(y: int): int
  {
    if y % 4 != 0 then 365 else if y % 100 != 0 then 366 else if y % 400 != 0 then 365 else 366
  }

  predicate IsLeapYear(y: int)
  {
    DaysInYear(y) == 366
  }

  lemma FloorStep(x: int)
    ensures (x + 1) / 4 - x / 4 == if (x + 1) % 4 == 0 then 1 else 0
    ensures (x + 1) / 100 - x / 100 == if (x + 1) % 100 == 0 then 1 else 0
    ensures (x + 1) / 400 - x / 400 == if (x + 1) % 400 == 0 then 1 else 0
  {
  }

  lemma ShiftedRemainders(y: int)
    ensures (y - 1968) % 4 == y % 4
    ensures (y - 1900) % 100 == y % 100
    ensures (y - 1600) % 400 == y % 400
  {
    assert y - 1968 == 4 * (y / 4 - 492) + y % 4;
    assert y - 1900 == 100 * (y / 100 - 19) + y % 100;
    assert y - 1600 == 400 * (y / 400 - 4) + y % 400;
  }

  lemma CenturyDivisibility(y: int)
    ensures y % 100 == 0 ==> y % 4 == 0
    ensures y % 400 == 0 ==> y % 100 == 0
  {
  }

  /** Consecutive years start `DaysInYear` days apart. */
  lemma YearLength(y: int)
    ensures DayFromYear(y + 1) - DayFromYear(y) == DaysInYear(y)
  {
    FloorStep(y - 1969);
    FloorStep(y - 1901);
    FloorStep(y - 1601);
    ShiftedRemainders(y);
    CenturyDivisibility(y);
    var a := (y - 1968) / 4 - (y - 1969) / 4;
    var b := (y - 1900) / 100 - (y - 1901) / 100;
    var c := (y - 1600) / 400 - (y - 1601) / 400;
    assert DayFromYear(y + 1) - DayFromYear(y) == 365 + a - b + c;
  }

  lemma {:induction false} DayFromYearMonotone(a: int, b: int)
    requires a < b
    ensures DayFromYear(a) + 365 * (b - a) <= DayFromYear(b)
    decreases b - a
  {
    YearLength(b - 1);
    if a < b - 1 {
      DayFromYearMonotone(a, b - 1);
    }
  }

  function SearchYearDown(z: int, y: int): (r: int)
    requires z < DayFromYear(y + 1)
    ensures DayFromYear(r) <= z < DayFromYear(r + 1)
    decreases DayFromYear(y) - z
  {
    if z >= DayFromYear(y) then y
    else
      YearLength(y - 1);
      SearchYearDown(z, y - 1)
  }

  function SearchYearUp(z: int, y: int): (r: int)
    requires DayFromYear(y) <= z
    ensures DayFromYear(r) <= z < DayFromYear(r + 1)
    decreases z - DayFromYear(y)
  {
    if z < DayFromYear(y + 1) then y
    else
      YearLength(y);
      SearchYearUp(z, y + 1)
  }

  /** ECMAScript YearFromTime on a day number: the year whose days include day `z`. */
  function YearFromDay(z: int): (y: int)
    ensures DayFromYear(y) <= z < DayFromYear(y + 1)
  {
    var guess := 1970 + (400 * z) / 146097;
    if DayFromYear(guess) <= z then SearchYearUp(z, guess) else SearchYearDown(z, guess - 1)
  }

  /** The year containing a day is unique. */
  lemma YearOfDayUnique(z: int, y: int)
    requires DayFromYear(y) <= z < DayFromYear(y + 1)
    ensures YearFromDay(z) == y
  {
    var x := YearFromDay(z);
    if x < y {
      DayFromYearMonotone(x + 1, y);
    } else if y < x {
      DayFromYearMonotone(y + 1, x);
    }
  }

  /** Days before the first of month `m` (0-based, 0 to 12) in a year. */
  function MonthStart(m: int, leap: bool): int
    requires 0 <= m <= 12
  {
    [0, 31, 59, 90, 120, 151, 181, 212, 243, 273, 304, 334, 365][m] + (if leap && m >= 2 then 1 else 0)
  }

  lemma MonthLengthAtMost31(m: int, leap: bool)
    requires 0 <= m < 12
    ensures 28 <= MonthStart(m + 1, leap) - MonthStart(m, leap) <= 31
  {
  }

  function SearchMonth(d: int, leap: bool, m: int): (r: int)
    requires 0 <= m < 12 && MonthStart(m, leap) <= d < MonthStart(12, leap)
    ensures m <= r < 12 && MonthStart(r, leap) <= d < MonthStart(r + 1, leap)
    decreases 12 - m
  {
    if d < MonthStart(m + 1, leap) then m else SearchMonth(d, leap, m + 1)
  }

  /** Month starts increase through the year. */
  lemma {:induction false} MonthStartMonotone(a: int, b: int, leap: bool)
    requires 0 <= a <= b <= 12
    ensures MonthStart(a, leap) + (b - a) * 28 <= MonthStart(b, leap)
    decreases b - a
  {
    if a < b {
      MonthLengthAtMost31(a, leap);
      MonthStartMonotone(a + 1, b, leap);
    }
  }

  /** The month containing a day of the year is unique. */
  lemma MonthOfDayUnique(d: int, leap: bool, m: int, r: int)
    requires 0 <= m < 12 && MonthStart(m, leap) <= d < MonthStart(m + 1, leap)
    requires 0 <= r < 12 && MonthStart(r, leap) <= d < MonthStart(r + 1, leap)
    ensures m == r
  {
    if m < r {
      MonthStartMonotone(m + 1, r, leap);
    } else if r < m {
      MonthStartMonotone(r + 1, m, leap);
    }
  }

  datatype CivilDate = CivilDate(year: int, month: int, day: int)

  /** The number of days in month `month` (1 to 12) of year `year`. */
  function DaysInMonth(year: int, month: int): int
    requires 1 <= month <= 12
  {
    MonthStart(month, IsLeapYear(year)) - MonthStart(month - 1, IsLeapYear(year))
  }

  /** A real calendar date: a month 1 to 12 and a day that fits in it. */
  predicate IsValidDate(c: CivilDate)
  {
    1 <= c.month <= 12 && 1 <= c.day <= DaysInMonth(c.year, c.month)
  }

  /** The calendar date (UTC) of day number `z`: a real date, so month 1 to 12, day of month 1 to 31. */
  function CivilFromDay(z: int): (c: CivilDate)
    ensures IsValidDate(c)
    ensures 1 <= c.month <= 12 && 1 <= c.day <= 31
    ensures c.year == YearFromDay(z)
    ensures MonthStart(c.month - 1, IsLeapYear(c.year)) <= z - DayFromYear(c.year) < MonthStart(c.month, IsLeapYear(c.year))
  {
    var y := YearFromDay(z);
    YearLength(y);
    DateOfYearDay(y, z - DayFromYear(y))
  }

  /** The date of day `d` (0-based) of year `y`. */
  function DateOfYearDay(y: int, d: int): (c: CivilDate)
    requires 0 <= d < MonthStart(12, IsLeapYear(y))
    ensures IsValidDate(c) && 1 <= c.day <= 31 && c.year == y
    ensures MonthStart(c.month - 1, IsLeapYear(y)) <= d < MonthStart(c.month, IsLeapYear(y))
    ensures c.day == d - MonthStart(c.month - 1, IsLeapYear(y)) + 1
  {
    var leap := IsLeapYear(y);
    var m := SearchMonth(d, leap, 0);
    MonthLengthAtMost31(m, leap);
    CivilDate(y, m + 1, d - MonthStart(m, leap) + 1)
  }

  /** ECMAScript MakeDay for a month 1 to 12: the day number of a calendar date. */
  function DayFromCivil(c: CivilDate): int
    requires 1 <= c.month <= 12
  {
    DayFromYear(c.year) + MonthStart(c.month - 1, IsLeapYear(c.year)) + c.day - 1
  }

  lemma CivilRoundTrip(z: int)
    ensures DayFromCivil(CivilFromDay(z)) == z
  {
  }

  /** The other direction: every real calendar date is the date of its own day number. */
  lemma CivilOfDayFromCivil(c: CivilDate)
    requires IsValidDate(c)
    ensures CivilFromDay(DayFromCivil(c)) == c
  {
    var z := DayFromCivil(c);
    var e := CivilFromDay(z);
    assert e.year == c.year by {
      DateInItsYear(c);
      YearOfDayUnique(z, c.year);
    }
    assert DayFromCivil(e) == z by {
      CivilRoundTrip(z);
    }
    SameYearDaySameDate(e, c);
  }

  /** Two real dates of one year on the same day of that year are the same date. */
  lemma SameYearDaySameDate(e: CivilDate, c: CivilDate)
    requires IsValidDate(e) && IsValidDate(c) && e.year == c.year
    requires MonthStart(e.month - 1, IsLeapYear(e.year)) + e.day == MonthStart(c.month - 1, IsLeapYear(c.year)) + c.day
    ensures e == c
  {
    var leap := IsLeapYear(c.year);
    var d := MonthStart(c.month - 1, leap) + c.day - 1;
    MonthOfDayUnique(d, leap, e.month - 1, c.month - 1);
  }

  /** A real date's day number lies in its year, in its month. */
  lemma DateInItsYear(c: CivilDate)
    requires IsValidDate(c)
    ensures DayFromYear(c.year) <= DayFromCivil(c) < DayFromYear(c.year + 1)
    ensures var d := DayFromCivil(c) - DayFromYear(c.year);
      MonthStart(c.month - 1, IsLeapYear(c.year)) <= d < MonthStart(c.month, IsLeapYear(c.year))
  {
    MonthStartMonotone(c.month, 12, IsLeapYear(c.year));
    YearLength(c.year);
  }

  // ------------------------------------------------------- toISOString / formatDate

  /** The year as `toISOString` writes it: four digits, or a sign and six digits outside 0..9999. */
  function IsoYear(y: int): string
  {
    if 0 <= y <= 9999 then ZeroPad(y, 4)
    else (if y < 0 then "-" else "+") + ZeroPad(Abs(y), 6)
  }

  /** `YYYY-MM-DD` of a calendar date. */
  function IsoDateOf(c: CivilDate): string
    requires 1 <= c.month <= 12 && 1 <= c.day <= 31
  {
    IsoYear(c.year) + "-" + ZeroPad(c.month, 2) + "-" + ZeroPad(c.day, 2)
  }

  /** `YYYY-MM-DD` of day number `z`. */
  function IsoDate(z: int): string
  {
    IsoDateOf(CivilFromDay(z))
  }

  /** `HH:mm:ss.sssZ` of a millisecond within the day. */
  function IsoTimeOfDay(ms: int): string
    requires 0 <= ms < MsPerDay
  {
    ZeroPad(ms / MsPerHour, 2) + ":" + ZeroPad(ms / MsPerMinute % 60, 2) + ":"
      + ZeroPad(ms / MsPerSecond % 60, 2) + "." + ZeroPad(ms % MsPerSecond, 3) + "Z"
  }

  /** `date.toISOString()`. */
  function ToIsoString(t: Time): string
  {
    IsoDate(DayOf(t)) + "T" + IsoTimeOfDay(t % MsPerDay)
  }

  /** `formatDate(date)`: `date.toISOString().split('T')[0]`. */
  function FormatDate(t: Time): string
  {
    Split(ToIsoString(t), 'T')[0]
  }

  lemma ZeroPadDigits(n: nat, w: nat)
    ensures forall ch :: ch in ZeroPad(n, w) ==> IsDigit(ch)
  {
    var r := ZeroPad(n, w);
    var s := NatToString(n);
    forall i | 0 <= i < |r| ensures IsDigit(r[i]) {
      if i >= |r| - |s| {
        assert r[i] == r[|r| - |s|..][i - (|r| - |s|)];
      }
    }
  }

  /** The characters of an ISO date: digits, the separators and the year's sign. */
  predicate IsDateChar(ch: char)
  {
    IsDigit(ch) || ch == '-' || ch == '+'
  }

  lemma IsoDateChars(c: CivilDate)
    requires 1 <= c.month <= 12 && 1 <= c.day <= 31
    ensures forall ch :: ch in IsoDateOf(c) ==> IsDateChar(ch)
  {
    if 0 <= c.year {
      ZeroPadDigits(c.year, 4);
    }
    ZeroPadDigits(Abs(c.year), 6);
    ZeroPadDigits(c.month, 2);
    ZeroPadDigits(c.day, 2);
  }

  /** `formatDate` keeps exactly the date part of the ISO string, the part before `T`. */
  lemma FormatDateIsDatePart(t: Time)
    ensures FormatDate(t) == IsoDate(DayOf(t))
    ensures ToIsoString(t) == FormatDate(t) + "T" + IsoTimeOfDay(t % MsPerDay)
  {
    var a := IsoDate(DayOf(t));
    var b := IsoTimeOfDay(t % MsPerDay);
    IsoDateChars(CivilFromDay(DayOf(t)));
    assert 'T' !in a;
    assert ToIsoString(t) == a + ['T'] + b;
    SplitAtFirst(a, 'T', b);
  }

  /** `formatDate` writes only digits, `-` and a year sign: no line break, no `T`. */
  lemma FormatDateChars(t: Time)
    ensures forall ch :: ch in FormatDate(t) ==> IsDateChar(ch)
  {
    FormatDateIsDatePart(t);
    IsoDateChars(CivilFromDay(DayOf(t)));
  }

  /** Only the day of the clock matters to `formatDate`. */
  lemma FormatDateByDay(t1: Time, t2: Time)
    requires DayOf(t1) == DayOf(t2)
    ensures FormatDate(t1) == FormatDate(t2)
  {
    FormatDateIsDatePart(t1);
    FormatDateIsDatePart(t2);
  }

  lemma IsoDateOfShape(c: CivilDate)
    requires 1 <= c.month <= 12 && 1 <= c.day <= 31 && 0 <= c.year <= 9999
    ensures |IsoDateOf(c)| == 10
    ensures IsoDateOf(c)[4] == '-' && IsoDateOf(c)[7] == '-'
    ensures forall i :: 0 <= i < 10 && i != 4 && i != 7 ==> IsDigit(IsoDateOf(c)[i])
    ensures IsoDateOf(c)[..4] == ZeroPad(c.year, 4)
    ensures IsoDateOf(c)[5..7] == ZeroPad(c.month, 2)
    ensures IsoDateOf(c)[8..] == ZeroPad(c.day, 2)
  {
    assert Pow10(2) == 100 && Pow10(4) == 10000 by {
      assert Pow10(1) == 10;
      assert Pow10(3) == 1000;
    }
    ZeroPadShape(c.year, 4);
    ZeroPadShape(c.month, 2);
    ZeroPadShape(c.day, 2);
  }

  /** In the years 0 to 9999, `formatDate` yields ten characters `YYYY-MM-DD`. */
  lemma FormatDateShape(t: Time)
    requires 0 <= CivilFromDay(DayOf(t)).year <= 9999
    ensures |FormatDate(t)| == 10
    ensures FormatDate(t)[4] == '-' && FormatDate(t)[7] == '-'
    ensures forall i :: 0 <= i < 10 && i != 4 && i != 7 ==> IsDigit(FormatDate(t)[i])
  {
    FormatDateIsDatePart(t);
    IsoDateOfShape(CivilFromDay(DayOf(t)));
  }

  /** Reads a `YYYY-MM-DD` string back into a day number; `None` for anything else, an impossible date included. */
  function ParseIsoDate(s: string): Option<int>
  {
    if |s| == 10 && s[4] == '-' && s[7] == '-' then
      var c := CivilDate(ParseDigits(s[..4]), ParseDigits(s[5..7]), ParseDigits(s[8..]));
      if IsValidDate(c) then Some(DayFromCivil(c)) else None
    else None
  }

  lemma {:induction false} ParseLeadingZeros(z: string, s: string)
    requires forall i :: 0 <= i < |z| ==> z[i] == '0'
    ensures ParseDigits(z + s) == ParseDigits(s)
    decreases |s|
  {
    if s == [] {
      assert z + s == z;
      ParseZeros(z);
    } else {
      assert (z + s)[..|z + s| - 1] == z + s[..|s| - 1];
      ParseLeadingZeros(z, s[..|s| - 1]);
    }
  }

  lemma {:induction false} ParseZeros(z: string)
    requires forall i :: 0 <= i < |z| ==> z[i] == '0'
    ensures ParseDigits(z) == 0
  {
    if z != [] {
      ParseZeros(z[..|z| - 1]);
    }
  }

  lemma ParseZeroPad(n: nat, w: nat)
    ensures ParseDigits(ZeroPad(n, w)) == n
  {
    var s := NatToString(n);
    var r := ZeroPad(n, w);
    var z := r[..|r| - |s|];
    assert r == z + s;
    ParseLeadingZeros(z, s);
    ParseNatToString(n);
  }

  lemma ParseIsoDateOf(c: CivilDate)
    requires IsValidDate(c) && 0 <= c.year <= 9999
    ensures ParseIsoDate(IsoDateOf(c)) == Some(DayFromCivil(c))
  {
    MonthLengthAtMost31(c.month - 1, IsLeapYear(c.year));
    IsoDateOfShape(c);
    ParseZeroPad(c.year, 4);
    ParseZeroPad(c.month, 2);
    ParseZeroPad(c.day, 2);
  }

  /**
   * `formatDate` loses nothing but the time of day: the date string reads
   * back as the day it was made from. So two instants share a date string
   * exactly when they share a day.
   */
  lemma FormatDateRoundTrip(t: Time)
    requires 0 <= CivilFromDay(DayOf(t)).year <= 9999
    ensures ParseIsoDate(FormatDate(t)) == Some(DayOf(t))
  {
    FormatDateIsDatePart(t);
    ParseIsoDateOf(CivilFromDay(DayOf(t)));
    CivilRoundTrip(DayOf(t));
  }

  lemma FormatDateSeparatesDays(t1: Time, t2: Time)
    requires 0 <= CivilFromDay(DayOf(t1)).year <= 9999
    requires 0 <= CivilFromDay(DayOf(t2)).year <= 9999
    ensures FormatDate(t1) == FormatDate(t2) <==> DayOf(t1) == DayOf(t2)
  {
    FormatDateRoundTrip(t1);
    FormatDateRoundTrip(t2);
    if DayOf(t1) == DayOf(t2) {
      FormatDateByDay(t1, t2);
    }
  }
}
