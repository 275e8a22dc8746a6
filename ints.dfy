/**
 * The fixed-width integer types the Rust sources use, as ranges of `int`,
 * and the truncating `as` casts between them written out.
 * `usize` is taken to be 64 bits wide.
 */
module Ints {
  const U8_LIMIT: int := 0x100
  const U16_LIMIT: int := 0x1_0000
  const U32_LIMIT: int := 0x1_0000_0000
  const I32_MAX: int := 0x7fff_ffff
  const USIZE_MAX: int := 0xffff_ffff_ffff_ffff

  type u8 = x: int | 0 <= x < 0x100
  type u16 = x: int | 0 <= x < 0x1_0000
  type i32 = x: int | -0x8000_0000 <= x < 0x8000_0000
  type usize = x: int | 0 <= x < 0x1_0000_0000_0000_0000

  /** A 128-bit identifier (the sources' `Uuid`); only its identity matters here. */
  type Uuid = x: int | 0 <= x < 0x1_0000_0000_0000_0000_0000_0000_0000_0000

  /** `x as u16` on an integer: keep the low 16 bits. */
  function AsU16(x: int): (r: u16)
    ensures 0 <= x < U16_LIMIT ==> r == x
    ensures (r - x) % U16_LIMIT == 0
  {
    x % U16_LIMIT
  }

  /** `x as u8` on an integer: keep the low 8 bits. */
  function AsU8(x: int): (r: u8)
    ensures 0 <= x < U8_LIMIT ==> r == x
    ensures (r - x) % U8_LIMIT == 0
  {
    x % U8_LIMIT
  }

  /** `x as i32` on an integer: keep the low 32 bits, read as two's complement. */
  function AsI32(x: int): (r: i32)
    ensures -I32_MAX - 1 <= x <= I32_MAX ==> r == x
    ensures (r - x) % U32_LIMIT == 0
  {
    var low := x % U32_LIMIT;
    if low <= I32_MAX then low else low - U32_LIMIT
  }
}

/** The failure-compatible wrappers used for the sources' `Option` and `Result`. */
module Outcomes {
  datatype Option<+T> = None | Some(value: T)

  datatype Result<+T, +E> = Ok(value: T) | Err(error: E) {
    predicate IsFailure() {
      Err?
    }

    function PropagateFailure<U>(): Result<U, E>
      requires Err?
    {
      Err(error)
    }

    function Extract(): T
      requires Ok?
    {
      value
    }
  }

  /** Rust's `()`. */
  datatype Unit = Unit
}
