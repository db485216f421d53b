/**
 * Nullable SQL columns as the `null` package of the Go code has them:
 * a payload plus a `Valid` flag. A value that is not valid still carries
 * a payload (the Go zero value when it was scanned from a NULL column).
 */
module Null {
  import opened Numeric

  datatype NullString = NullString(value: string, valid: bool) {
    /** `IsZero` of the Go package: the column is NULL. */
    predicate IsZero() { !valid }
  }

  datatype NullInt = NullInt(value: int64, valid: bool) {
    predicate IsZero() { !valid }
  }

  /** `null.StringFrom`: a present string. */
  function StringFrom(s: string): (r: NullString)
    ensures !r.IsZero() && r.value == s
  {
    NullString(s, true)
  }

  /** `null.String{}`: the NULL string. */
  const NoString := NullString("", false)

  /** `null.IntFrom`: a present integer. */
  function IntFrom(i: int64): (r: NullInt)
    ensures !r.IsZero() && r.value == i
  {
    NullInt(i, true)
  }

  /** `null.Int{}`: the NULL integer. */
  const NoInt := NullInt(0, false)
}
