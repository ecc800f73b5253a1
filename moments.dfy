/**
 * Calendar values. A date is a proleptic Gregorian day number (Python's
 * `toordinal()`); a naive date-time adds the second of the day; an aware
 * date-time adds a fixed UTC offset in seconds. Sub-second precision is not
 * modelled.
 */
module Moments {

  const SECONDS_PER_DAY: int := 86400
  /** `date(1970, 1, 1).toordinal()`. */
  const EPOCH_ORDINAL: int := 719163

  type SecondOfDay = s: int | 0 <= s < 86400
  type UtcOffset = o: int | -86400 < o < 86400

  datatype Date = Date(ordinal: int)
  datatype NaiveDateTime = NaiveDateTime(date: Date, second: SecondOfDay)
  datatype DateTime = DateTime(local: NaiveDateTime, offset: UtcOffset)

  /** A due value: a pure calendar date or a time-zone-bearing date-time. */
  datatype Moment = OnDate(date: Date) | At(dateTime: DateTime)

  /** Seconds since 1970-01-01T00:00Z: what aware comparison, subtraction and `timestamp()` use. */
  function Instant(dt: DateTime): int {
    (dt.local.date.ordinal - EPOCH_ORDINAL) * SECONDS_PER_DAY + dt.local.second - dt.offset
  }

  /** `datetime.fromtimestamp(t, tz=UTC)`. */
  function FromTimestampUtc(t: int): (dt: DateTime)
    ensures Instant(dt) == t
    ensures dt.offset == 0
  {
    DateTime(NaiveDateTime(Date(EPOCH_ORDINAL + t / SECONDS_PER_DAY), t % SECONDS_PER_DAY), 0)
  }

  /** `datetime.fromordinal(d.toordinal()).timestamp()`: local midnight, read in the system zone. */
  function MidnightTimestamp(d: Date, localOffset: UtcOffset): (t: int)
    ensures t == Instant(DateTime(NaiveDateTime(d, 0), localOffset))
  {
    (d.ordinal - EPOCH_ORDINAL) * SECONDS_PER_DAY - localOffset
  }

  /**
   * `due <= now`, where a date due is compared with `now.date()` and a
   * date-time due with `now` itself (aware comparison: by instant).
   */
  predicate AtOrBefore(due: Moment, now: DateTime) {
    match due
    case OnDate(d) => d.ordinal <= now.local.date.ordinal
    case At(x) => Instant(x) <= Instant(now)
  }
}
