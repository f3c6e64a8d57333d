/** Vocabulary shared by the sales back end: optional values, record
    identifiers and calendar dates. */
module Common {

  /** A value that may be absent (an unset document field or query parameter). */
  datatype Option<+T> = None | Some(value: T) {
    function GetOr(default: T): T {
      match this
      case Some(v) => v
      case None => default
    }
  }

  // Document identifiers; the store only compares them for equality.
  type ProductId = nat
  type SaleId = nat
  type CustomerId = nat
  type CategoryId = nat

  type Month = m: int | 1 <= m <= 12 witness 1

  /** A point in time: the calendar year and month, and the position inside
      that month (day and time of day folded into one ordered number). */
  datatype Date = Date(year: int, month: Month, offset: int)

  /** `a` is not later than `b`. */
  predicate NotAfter(a: Date, b: Date) {
    || a.year < b.year
    || (a.year == b.year && a.month < b.month)
    || (a.year == b.year && a.month == b.month && a.offset <= b.offset)
  }

  /** A date lies in a range whose two bounds are each optional and inclusive. */
  predicate InRange(d: Date, start: Option<Date>, end: Option<Date>) {
    && (start.None? || NotAfter(start.value, d))
    && (end.None? || NotAfter(d, end.value))
  }

  function Max(a: int, b: int): int {
    if a >= b then a else b
  }
}
