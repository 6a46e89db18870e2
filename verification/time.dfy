/** Offset-aware date-times as `datetime.datetime` values with a fixed UTC offset.

    A value keeps the wall-clock date and time of the text it was parsed from and the
    offset written there; comparisons go through the instant it denotes, while
    `Date` is the wall-clock date in the value's own offset (what `.date()` returns). */
module Time {

  /** A proleptic Gregorian calendar date, as `datetime.date`. */
  datatype Date = Date(year: int, month: int, day: int)

  const MicrosPerDay: int := 86_400_000_000

  /** `micros` is the wall-clock time of day in microseconds; `offset` is the UTC
      offset in microseconds (east of Greenwich is positive). */
  datatype DateTime = DateTime(date: Date, micros: int, offset: int)
  {
    /** Microseconds since 1970-01-01T00:00:00 UTC: the order `<` and `>` compare. */
    function Instant(): int {
      DayNumber(date) * MicrosPerDay + micros - offset
    }
  }

  /** Days since 1970-01-01 of a proleptic Gregorian date (days-from-civil). */
  function DayNumber(d: Date): int {
    var y := if d.month <= 2 then d.year - 1 else d.year;
    var era := y / 400;
    var yoe := y - era * 400;
    var mp := if d.month > 2 then d.month - 3 else d.month + 9;
    var doy := (153 * mp + 2) / 5 + d.day - 1;
    var doe := yoe * 365 + yoe / 4 - yoe / 100 + doy;
    era * 146097 + doe - 719468
  }
}
