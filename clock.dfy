/**
 * Wall-clock timestamps as Go's `time.Time` exposes them: year, month (1..12), day,
 * hour, minute, second and nanosecond. Time zones are not modelled: a value is the
 * wall-clock reading its fields give.
 */
module Clock {

  datatype Time = Time(year: int, month: int, day: int, hour: int, minute: int, second: int, nanosecond: int)

  /** The zero value `time.Time{}`: January 1, year 1, 00:00:00.000000000 UTC. */
  const ZeroTime := Time(1, 1, 1, 0, 0, 0, 0)

  /** Gregorian leap year, as Go's `isLeap` computes it (divisibility does not depend on the sign convention of `%`). */
  predicate IsLeap(year: int) {
    year % 4 == 0 && (year % 100 != 0 || year % 400 == 0)
  }

  /** Number of days in a month of a given year. */
  function DaysIn(month: int, year: int): (n: int)
    requires 1 <= month <= 12
    ensures 28 <= n <= 31
    ensures n == 29 <==> month == 2 && IsLeap(year)
    ensures n == 30 <==> month in {4, 6, 9, 11}
    ensures n == 31 <==> month in {1, 3, 5, 7, 8, 10, 12}
  {
    if month == 2 then (if IsLeap(year) then 29 else 28)
    else if month in {4, 6, 9, 11} then 30
    else 31
  }

  /** A real calendar instant: every field within its range. */
  predicate Valid(t: Time) {
    && 1 <= t.month <= 12
    && 1 <= t.day <= DaysIn(t.month, t.year)
    && 0 <= t.hour < 24
    && 0 <= t.minute < 60
    && 0 <= t.second < 60
    && 0 <= t.nanosecond < 1_000_000_000
  }

  /** The years `encoding/json` can write for a `time.Time` (RFC 3339 has four-digit years). */
  predicate YearInRange(t: Time) {
    0 <= t.year <= 9999
  }

  /** On a minute boundary: no seconds and no sub-second part. */
  predicate AtMinute(t: Time) {
    t.second == 0 && t.nanosecond == 0
  }

  /** Same year, month, day, hour and minute. */
  predicate SameMinute(a: Time, b: Time) {
    a.year == b.year && a.month == b.month && a.day == b.day && a.hour == b.hour && a.minute == b.minute
  }

  /** Chronological order on timestamps: `a` is not later than `b`. */
  predicate NotAfter(a: Time, b: Time) {
    a.year < b.year || (a.year == b.year &&
    (a.month < b.month || (a.month == b.month &&
    (a.day < b.day || (a.day == b.day &&
    (a.hour < b.hour || (a.hour == b.hour &&
    (a.minute < b.minute || (a.minute == b.minute &&
    (a.second < b.second || (a.second == b.second &&
    a.nanosecond <= b.nanosecond)))))))))))
  }

  /**
   * `time.Date(now.Year(), now.Month(), now.Day(), now.Hour(), now.Minute(), 0, 0, UTC)`:
   * the time with seconds and nanoseconds discarded. `time.Date` normalises
   * out-of-range fields; on a valid reading it keeps them as they are.
   */
  function TruncateToMinute(t: Time): (r: Time)
    ensures AtMinute(r) && SameMinute(r, t)
    ensures Valid(t) ==> Valid(r) && NotAfter(r, t)
    ensures AtMinute(t) ==> r == t
  {
    Time(t.year, t.month, t.day, t.hour, t.minute, 0, 0)
  }

  /** The truncation is the latest minute boundary that is not after `t`. */
  lemma TruncateIsFloor(t: Time, m: Time)
    requires Valid(t) && AtMinute(m) && NotAfter(m, t)
    ensures NotAfter(m, TruncateToMinute(t))
  {
  }

  /** Two readings in the same minute truncate to the same timestamp. */
  lemma TruncateSameMinute(a: Time, b: Time)
    requires SameMinute(a, b)
    ensures TruncateToMinute(a) == TruncateToMinute(b)
  {
  }
}
