/** Fixed-width unsigned integers of the C++ program, and the Option type. */
module Numerics {

  const TWO_32: int := 0x1_0000_0000
  const TWO_64: int := 0x1_0000_0000_0000_0000

  /** `unsigned`, `uint32_t` and `cl_uint` */
  type u32 = x: int | 0 <= x < TWO_32

  /** `uint64_t`, `size_t` and `cl_ulong` on the 64-bit targets the tool is built for */
  type u64 = x: int | 0 <= x < TWO_64

  /** One byte of a file read with `fread` */
  type byte = x: int | 0 <= x < 256

  /** Conversion of a non-negative value to a 32-bit unsigned integer: the value modulo 2^32. */
  function Wrap32(x: nat): (r: u32)
    ensures x < TWO_32 ==> r == x
    ensures r <= x
  {
    x % TWO_32
  }

  /** Conversion of an integer to a 64-bit unsigned integer (`size_t` arithmetic): modulo 2^64. */
  function Wrap64(x: int): (r: u64)
    ensures 0 <= x < TWO_64 ==> r == x
    ensures x == -1 ==> r == TWO_64 - 1
    ensures 0 <= x ==> r <= x
  {
    x % TWO_64
  }

  function Min(a: int, b: int): (m: int)
    ensures m <= a && m <= b && (m == a || m == b)
  {
    if a <= b then a else b
  }

  datatype Option<+T> = None | Some(value: T)
}
