/**
 * Dates as the application uses them: a date is the millisecond timestamp
 * `new Date(...)` yields, a calendar day is a whole number of days since
 * 1970-01-01, and the calendar month and year of a day follow the
 * proleptic Gregorian calendar.
 */
module Dates {

  /** `1000 * 60 * 60 * 24`, the divisor of the due-date countdown. */
  const MsPerDay: int := 86400000

  /** The calendar day a timestamp falls on. */
  function DayOf(ms: int): int {
    ms / MsPerDay
  }

  /** The first millisecond of a calendar day. */
  function StartOfDay(day: int): int {
    day * MsPerDay
  }

  /**
   * `Math.ceil((due - now) / 86400000)`: whole days until `due`, rounded up,
   * negative once the due time has passed.
   */
  function Countdown(due: int, now: int): (days: int)
    ensures (days - 1) * MsPerDay < due - now <= days * MsPerDay
  {
    -((now - due) / MsPerDay)
  }

  /** Countdown is the unique whole number satisfying the ceiling bounds. */
  lemma CountdownUnique(due: int, now: int, d: int)
    requires (d - 1) * MsPerDay < due - now <= d * MsPerDay
    ensures Countdown(due, now) == d
  {
  }

  datatype YearMonth = YearMonth(year: int, month: int)

  /**
   * The year and month (1 to 12) of a calendar day, by the usual
   * days-to-civil conversion over 400-year eras.
   */
  function CivilYearMonth(day: int): YearMonth {
    var z := day + 719468;
    var era := z / 146097;
    var doe := z - era * 146097;
    var yoe := (doe - doe / 1460 + doe / 36524 - doe / 146096) / 365;
    var y := yoe + era * 400;
    var doy := doe - (365 * yoe + yoe / 4 - yoe / 100);
    var mp := (5 * doy + 2) / 153;
    var m := if mp < 10 then mp + 3 else mp - 9;
    YearMonth(if m <= 2 then y + 1 else y, m)
  }

  /** `getMonth()` and `getFullYear()` of two timestamps agree. */
  predicate SameMonth(ms: int, otherMs: int) {
    CivilYearMonth(DayOf(ms)) == CivilYearMonth(DayOf(otherMs))
  }
}
