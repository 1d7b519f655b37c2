/** Value types shared by the logger model: optional values, fallible results
    and the 32-bit integers of the C# source. */
module Common {

  /** A value that may be missing (a C# null). */
  datatype Option<T> = None | Some(value: T) {
    function GetOr(default: T): T {
      if Some? then value else default
    }
  }

  /** The outcome of an operation that may throw: the value, or the exception's name. */
  datatype Result<T> = Success(value: T) | Failure(error: string)

  const Int32Min: int := -0x8000_0000
  const Int32Max: int := 0x7FFF_FFFF
  const TwoTo32: int := 0x1_0000_0000

  predicate IsInt32(x: int) {
    Int32Min <= x <= Int32Max
  }

  /** The value an unchecked C# `int` operation leaves when the exact result is `x`:
      two's-complement wrap-around into the 32-bit range. */
  function Wrap32(x: int): (r: int)
    ensures IsInt32(r)
    ensures IsInt32(x) ==> r == x
    ensures (r - x) % TwoTo32 == 0
  {
    (x - Int32Min) % TwoTo32 + Int32Min
  }
}
