/**
 * Calendar dates (`chrono.Date`) as an ordered type with a zero value, and
 * the conversion between dates and unix seconds, which depends on the time
 * zone and is therefore a parameter of the model.
 */
module Chrono {
  import opened Numeric

  /** A day count from Go's zero time; `Date(0)` is the zero value. */
  datatype Date = Date(ordinal: int) {
    predicate IsZero() { ordinal == 0 }
    predicate Before(other: Date) { ordinal < other.ordinal }
  }

  const ZeroDate := Date(0)

  /**
   * `chrono.DateFrom(time.Unix(s, 0))` and `Date.Unix()`, supplied by the caller.
   */
  datatype Calendar = Calendar(dateOfUnix: int64 -> Date, unixOfDate: Date -> int64)

  /** Converting d to unix seconds and back gives d again. */
  predicate RoundTripsAt(cal: Calendar, d: Date) {
    cal.dateOfUnix(cal.unixOfDate(d)) == d
  }
}
