/** Calendar dates at day resolution, which is what `Timestamp.normalize()`
    leaves of a pandas timestamp. A date is a day number: days since
    1970-01-01 in the proleptic Gregorian calendar. */
module Calendar {

  type Day = int

  predicate IsLeapYear(y: int) {
    y % 4 == 0 && (y % 100 != 0 || y % 400 == 0)
  }

  function DaysInMonth(y: int, m: int): int
    requires 1 <= m <= 12
  {
    if m == 2 then (if IsLeapYear(y) then 29 else 28)
    else if m == 4 || m == 6 || m == 9 || m == 11 then 30
    else 31
  }

  predicate ValidDate(y: int, m: int, d: int) {
    1 <= m <= 12 && 1 <= d <= DaysInMonth(y, m)
  }

  /** Day number of a calendar date, counting years from March so that the
      leap day comes last in the counted year. */
  function DaysFromCivil(y: int, m: int, d: int): Day
    requires ValidDate(y, m, d)
  {
    var yy := if m <= 2 then y - 1 else y;
    var era := yy / 400;
    var yoe := yy - era * 400;
    var mp := if m > 2 then m - 3 else m + 9;
    var doy := (153 * mp + 2) / 5 + d - 1;
    var doe := yoe * 365 + yoe / 4 - yoe / 100 + doy;
    era * 146097 + doe - 719468
  }

  /** Python's `date.weekday()`: Monday is 0 and Sunday is 6; day 0,
      1970-01-01, was a Thursday. */
  function Weekday(day: Day): (w: int)
    ensures 0 <= w < 7
    ensures w == 0 <==> (day - 4) % 7 == 0
  {
    (day + 3) % 7
  }

  /** Nanoseconds in a day. */
  const NanosPerDay: int := 86_400_000_000_000

  /** The range of a pandas `Timestamp`, in nanoseconds since the epoch
      (1677-09-21 00:12:43.145224193 to 2262-04-11 23:47:16.854775807); the
      int64 value just below it is reserved for `NaT`. */
  const MinTimestampNanos: int := -9_223_372_036_854_775_807
  const MaxTimestampNanos: int := 9_223_372_036_854_775_807

  /** The first and last dates whose midnight is a valid `Timestamp`:
      1677-09-22 and 2262-04-11. */
  const FirstTimestampDay: Day := -106751
  const LastTimestampDay: Day := 106751

  lemma TimestampDayBounds()
    ensures DaysFromCivil(1970, 1, 1) == 0
    ensures DaysFromCivil(1677, 9, 22) == FirstTimestampDay
    ensures DaysFromCivil(2262, 4, 11) == LastTimestampDay
    ensures FirstTimestampDay * NanosPerDay >= MinTimestampNanos
    ensures (FirstTimestampDay - 1) * NanosPerDay < MinTimestampNanos
    ensures LastTimestampDay * NanosPerDay <= MaxTimestampNanos
    ensures (LastTimestampDay + 1) * NanosPerDay > MaxTimestampNanos
  {
  }
}
