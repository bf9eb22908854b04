/** Small shared vocabulary: optional values, error-carrying results and Go's
    64-bit `int`. */
module Base {

  datatype Option<+T> = None | Some(value: T)

  /** A Go `(value, error)` pair: either a value or an error message. */
  datatype Result<+T> = Ok(value: T) | Err(msg: string)

  const MinInt64: int := -0x8000_0000_0000_0000
  const MaxInt64: int := 0x7fff_ffff_ffff_ffff

  /** Go's `int` on a 64-bit target. */
  type GoInt = x: int | MinInt64 <= x <= MaxInt64

  /** Two's complement wrap-around of an exact integer into Go's `int`. */
  function Wrap64(x: int): (r: GoInt)
    ensures (r - x) % 0x1_0000_0000_0000_0000 == 0
    ensures MinInt64 <= x <= MaxInt64 ==> r == x
  {
    var m := x % 0x1_0000_0000_0000_0000;
    if m <= MaxInt64 then m else m - 0x1_0000_0000_0000_0000
  }
}
