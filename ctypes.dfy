/** The C integer types, operators and error codes the filters rely on. */
module CTypes {

  const Int32Min: int := -0x8000_0000
  const Int32Max: int := 0x7FFF_FFFF

  newtype int16 = x: int | -0x8000 <= x < 0x8000
  newtype int32 = x: int | -0x8000_0000 <= x < 0x8000_0000

  /** errno values of Linux, and FFmpeg's AVERROR(e), which negates them. */
  const EINVAL: int := 22
  const ENOMEM: int := 12

  function AvError(e: int): int { -e }

  /** C's `/` on int truncates toward zero; Dafny's `/` is Euclidean. */
  function CDiv(a: int, b: int): (q: int)
    requires b > 0
    ensures a >= 0 ==> q * b <= a < q * b + b
    ensures a < 0 ==> q * b - b < a <= q * b
  {
    if a >= 0 then a / b else -((-a) / b)
  }
}
