/** Fixed-width integers, the casts between them, and Option/Result as the
    Rust code uses them.  Every width is written out explicitly, because
    Dafny's integers are unbounded. */
module RustTypes {

  type U8 = x: int | 0 <= x < 0x100
  type U16 = x: int | 0 <= x < 0x1_0000

  const I16Min: int := -0x8000
  const I16Max: int := 0x7FFF
  const I32Min: int := -0x8000_0000
  const I32Max: int := 0x7FFF_FFFF

  predicate InI16(x: int) { I16Min <= x <= I16Max }
  predicate InI32(x: int) { I32Min <= x <= I32Max }

  datatype Option<T> = None | Some(value: T)

  datatype Result<T, E> = Ok(value: T) | Err(error: E)

  /** `x as i16` on an integer: keeps the low 16 bits, two's complement. */
  function WrapI16(x: int): (r: int)
    ensures InI16(r)
    ensures (r - x) % 0x1_0000 == 0
    ensures InI16(x) ==> r == x
  {
    var low := x % 0x1_0000;
    if low <= I16Max then low else low - 0x1_0000
  }

  /** `x as i32` on a float that is already integral (the result of `round`):
      Rust saturates at the bounds of i32. */
  function SaturateI32(x: int): (r: int)
    ensures InI32(r)
    ensures InI32(x) ==> r == x
    ensures x < I32Min ==> r == I32Min
    ensures x > I32Max ==> r == I32Max
  {
    if x < I32Min then I32Min else if x > I32Max then I32Max else x
  }
}
