/**
 * Calendar days as proleptic Gregorian ordinals, the numbers Python's `date.toordinal()`
 * gives: day 1 is 0001-01-01 and day 3652059 is 9999-12-31, the last day a `datetime` can
 * hold. Adding `timedelta(days=n)` to a `datetime` keeps its time of day, so only the
 * date part moves, by exactly `n`.
 */
module Calendar {
  import opened Results

  type Date = int

  const MIN_ORDINAL: int := 1
  const MAX_ORDINAL: int := 3652059

  predicate IsDate(d: int) {
    MIN_ORDINAL <= d <= MAX_ORDINAL
  }

  /** The `OverflowError` Python raises when a date would pass 9999-12-31. */
  datatype Error = DateOverflow

  /**
   * `d + timedelta(days=n)`. `timedelta` itself also refuses more than 999999999 days,
   * but any such `n` already carries a valid `d` past the last ordinal.
   */
  function AddDays(d: Date, n: nat): (r: Result<Date, Error>)
    requires IsDate(d)
    ensures r.Ok? <==> d + n <= MAX_ORDINAL
    ensures r.Ok? ==> IsDate(r.value) && r.value - d == n
  {
    if d + n <= MAX_ORDINAL then Ok(d + n) else Err(DateOverflow)
  }
}
