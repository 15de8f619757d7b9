/** Shared vocabulary: the 8-bit byte of the bus and an optional value. */
module Basics {

  /** A `uint8_t`. Shifts and ors on it truncate to 8 bits, as an assignment
      of a promoted C expression back to `uint8_t` does. */
  type byte = bv8

  /** An operation that either yields a value or, on rejected input, nothing. */
  datatype Option<T> = None | Some(value: T)

  /** The C conversion of an `int` to `uint8_t`: reduction modulo 256. */
  function ToByte(x: int): (b: byte)
    ensures 0 <= x < 256 ==> b as int == x
    ensures x == -1 ==> b == 0xFF
  {
    (x % 256) as byte
  }
}
