/** Value types shared by every module, and the saturating i64 arithmetic of the source. */
module Common {
  datatype Option<+T> = None | Some(value: T)

  datatype Result<+T, +E> = Ok(value: T) | Err(error: E)

  const I64_MAX: int := 0x7FFF_FFFF_FFFF_FFFF
  const I64_MIN: int := -0x8000_0000_0000_0000

  /** The value nearest to `x` that an `i64` can hold. */
  function Clamp(x: int): (r: int)
    ensures I64_MIN <= r <= I64_MAX
    ensures I64_MIN <= x <= I64_MAX ==> r == x
  {
    if x > I64_MAX then I64_MAX else if x < I64_MIN then I64_MIN else x
  }

  /** A millisecond timestamp: an `i64`. */
  type Timestamp = t: int | I64_MIN <= t <= I64_MAX

  function SaturatingAdd(a: Timestamp, b: Timestamp): Timestamp { Clamp(a + b) }

  function SaturatingSub(a: Timestamp, b: Timestamp): Timestamp { Clamp(a - b) }
}
