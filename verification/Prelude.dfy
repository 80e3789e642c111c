// Small shared vocabulary: optional values, and instants and durations counted
// in whole nanoseconds as Go's time package counts them.
module Prelude {
  datatype Option<+T> = None | Some(value: T)

  datatype Result<+T> = Success(value: T) | Failure

  type Time = int
  type Dur = int

  const MILLISECOND: Dur := 1_000_000
  const SECOND: Dur := 1000 * MILLISECOND
  const MINUTE: Dur := 60 * SECOND
  const HOUR: Dur := 60 * MINUTE
  const DAY: Dur := 24 * HOUR

  function Max(a: int, b: int): (m: int)
    ensures m >= a && m >= b && (m == a || m == b)
  {
    if a < b then b else a
  }

  function Min(a: int, b: int): (m: int)
    ensures m <= a && m <= b && (m == a || m == b)
  {
    if b < a then b else a
  }
}
