/** Optional values: a Python `None` or a nullable column. */
module Wrappers {

  datatype Option<+T> = None | Some(value: T) {

    /** The value, or `default` for None (Python's `x or default` on a nullable field). */
    function GetOr(default: T): T {
      match this
      case Some(v) => v
      case None => default
    }
  }

  /** A nullable amount read as zero when missing (`x or Decimal("0")`, `Coalesce(x, 0)`). */
  function OrZero(x: Option<int>): int {
    x.GetOr(0)
  }
}
