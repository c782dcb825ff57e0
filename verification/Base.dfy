/** Types shared by every module: the source's 64-bit integers, its opaque
    identifiers and instants, and the usual option type. */
module Base {

  /** Go's int64 (and int, which is 64 bits wide on the supported platforms). */
  type Int64 = x: int | -0x8000_0000_0000_0000 <= x <= 0x7FFF_FFFF_FFFF_FFFF

  const MAX_INT64: Int64 := 0x7FFF_FFFF_FFFF_FFFF
  const MIN_INT64: Int64 := -0x8000_0000_0000_0000

  /** x + 1 in 64-bit arithmetic: the largest value wraps to the smallest. */
  function Increment(x: Int64): Int64 {
    if x == MAX_INT64 then MIN_INT64 else x + 1
  }

  function Max(x: Int64, y: Int64): Int64 {
    if x < y then y else x
  }

  /** Identifiers are only ever compared; zero is the nil UUID. */
  type UUID = nat

  const NIL_UUID: UUID := 0

  /** Instants are opaque audit values; zero is the zero time. */
  type Time = int

  const ZERO_TIME: Time := 0

  datatype Option<+T> = None | Some(value: T)
}
