/** Local calendar dates as the browser's `Date` sees them: a date is the number of
    milliseconds of its local midnight, counted from 1970-01-01. Months are numbered
    0..11 as in JavaScript. Time zones and daylight-saving shifts are not modelled:
    every day is `DayMs` long. */
module CivilDates {

  const DayMs: int := 86400000

  /** A JavaScript year, month (0..11) and day of month. */
  datatype Civil = Civil(year: int, month: int, day: int)

  predicate IsLeap(y: int) {
    y % 4 == 0 && (y % 100 != 0 || y % 400 == 0)
  }

  /** `new Date(y, m + 1, 0).getDate()`: the length of month `m` of year `y`. */
  function DaysInMonth(y: int, m: int): (n: int)
    requires 0 <= m < 12
    ensures 28 <= n <= 31
    ensures n == 29 <==> m == 1 && IsLeap(y)
  {
    if m == 1 then (if IsLeap(y) then 29 else 28)
    else if m == 3 || m == 5 || m == 8 || m == 10 then 30
    else 31
  }

  /** The day number of the first day of the March-based year `y` (March 1 of `y`),
      up to a constant offset. */
  function YearStart(y: int): int {
    var era := y / 400;
    var yoe := y % 400;
    era * 146097 + yoe * 365 + yoe / 4 - yoe / 100
  }

  /** Stepping a count of `d`s on by one crosses a multiple of `d` exactly when
      the new value is one. */
  lemma DivStep(n: int, d: int)
    requires d == 4 || d == 100 || d == 400
    ensures (n + 1) / d == n / d + (if (n + 1) % d == 0 then 1 else 0)
    ensures (n + 1) % d == if n % d == d - 1 then 0 else n % d + 1
  {
  }

  /** A year's remainders by 4 and by 100 are those of its year of the era. */
  lemma EraRemainders(q: int, r: int)
    requires 0 <= r < 400
    ensures (400 * q + r) % 4 == r % 4 && (400 * q + r) % 100 == r % 100
  {
    assert 400 * q + r == 4 * (100 * q) + r;
    assert 400 * q + r == 100 * (4 * q) + r;
  }

  /** Leap years repeat every 400 years. */
  lemma LeapByYearOfEra(y: int)
    ensures IsLeap(y) <==> (y % 400) % 4 == 0 && ((y % 400) % 100 != 0 || y % 400 == 0)
  {
    EraRemainders(y / 400, y % 400);
  }

  /** A March-based year is 366 days long exactly when the February that ends it
      has 29 days. */
  lemma YearLength(y: int)
    ensures YearStart(y + 1) - YearStart(y) == if IsLeap(y + 1) then 366 else 365
  {
    var yoe := y % 400;
    DivStep(y, 400);
    LeapByYearOfEra(y + 1);
    if yoe < 399 {
      DivStep(yoe, 4);
      DivStep(yoe, 100);
      assert (y + 1) % 400 == yoe + 1;
    }
  }

  /** The number of days from 1970-01-01 to year `y`, month `m` (0..11), day `d`. */
  function DayNumber(y: int, m: int, d: int): int
    requires 0 <= m < 12
  {
    var shifted := if m < 2 then y - 1 else y;
    var mp := if m >= 2 then m - 2 else m + 10;
    YearStart(shifted) + (153 * mp + 2) / 5 + d - 1 - 719468
  }

  /** `new Date(y, m, d).getTime()` at local midnight. */
  function DateMs(y: int, m: int, d: int): int
    requires 0 <= m < 12
  {
    DayNumber(y, m, d) * DayMs
  }

  /** The numbering starts at 1970-01-01. */
  lemma EpochIsDayZero()
    ensures DayNumber(1970, 0, 1) == 0 && DateMs(1970, 0, 1) == 0
    ensures DayNumber(2000, 2, 1) - DayNumber(2000, 1, 1) == 29
  {
    assert YearStart(1969) == 719162;
    assert (153 * 10 + 2) / 5 == 306;
    assert YearStart(2000) == 730485 && YearStart(1999) == 730119;
    assert (153 * 11 + 2) / 5 == 337;
  }

  /** `getDay()`: 0 is Sunday; 1970-01-01 was a Thursday. */
  function Weekday(dayNumber: int): (w: int)
    ensures 0 <= w < 7
  {
    (dayNumber + 4) % 7
  }

  /** The month after `m` of year `y` and the month before it. */
  function NextMonth(y: int, m: int): (r: (int, int))
    requires 0 <= m < 12
    ensures 0 <= r.1 < 12
  {
    if m == 11 then (y + 1, 0) else (y, m + 1)
  }

  function PrevMonth(y: int, m: int): (r: (int, int))
    requires 0 <= m < 12
    ensures 0 <= r.1 < 12
  {
    if m == 0 then (y - 1, 11) else (y, m - 1)
  }

  /** Months counted from year 0, so that stepping can be compared. */
  function MonthIndex(y: int, m: int): int {
    y * 12 + m
  }

  /** One step forward or back moves the month index by one, and the two steps undo
      each other. */
  lemma MonthSteps(y: int, m: int)
    requires 0 <= m < 12
    ensures MonthIndex(NextMonth(y, m).0, NextMonth(y, m).1) == MonthIndex(y, m) + 1
    ensures MonthIndex(PrevMonth(y, m).0, PrevMonth(y, m).1) == MonthIndex(y, m) - 1
    ensures PrevMonth(NextMonth(y, m).0, NextMonth(y, m).1) == (y, m)
    ensures NextMonth(PrevMonth(y, m).0, PrevMonth(y, m).1) == (y, m)
  {
  }

  /** Day numbers run on by one from day to day within a month. */
  lemma NextDay(y: int, m: int, d: int)
    requires 0 <= m < 12
    ensures DayNumber(y, m, d + 1) == DayNumber(y, m, d) + 1
  {
  }

  /** The day after the last day of a month, as `DaysInMonth` counts it, is the
      first day of the next month. */
  lemma MonthEndMeetsNextMonth(y: int, m: int)
    requires 0 <= m < 12
    ensures DayNumber(y, m, DaysInMonth(y, m)) + 1 == DayNumber(NextMonth(y, m).0, NextMonth(y, m).1, 1)
  {
    if m == 1 {
      YearLength(y - 1);
    } else {
      var mp := if m >= 2 then m - 2 else m + 10;
      MonthOffsetStep(mp);
    }
  }

  /** The day offsets of consecutive months of a March-based year differ by the
      length of the earlier month: 31 days except April, June, September and
      November. */
  lemma MonthOffsetStep(mp: int)
    requires 0 <= mp < 11
    ensures (153 * (mp + 1) + 2) / 5 - (153 * mp + 2) / 5 == if mp == 1 || mp == 3 || mp == 6 || mp == 8 then 30 else 31
  {
  }

  /** Within a month, a later day is a later date. */
  lemma DateMsMonotone(y: int, m: int, d1: int, d2: int)
    requires 0 <= m < 12
    ensures d1 < d2 <==> DateMs(y, m, d1) < DateMs(y, m, d2)
    ensures DateMs(y, m, d2) - DateMs(y, m, d1) == (d2 - d1) * DayMs
  {
  }
}
