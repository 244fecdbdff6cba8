/** Integer division in C, which truncates towards zero, and the 32-bit `int`. */
module CArithmetic {
  newtype int32 = x: int | -0x8000_0000 <= x <= 0x7FFF_FFFF

  function CDiv(a: int, b: int): int
    requires b > 0
  {
    if a >= 0 then a / b else -((-a) / b)
  }

  /** `a - a / b * b`, which has the sign of `a`. */
  function CMod(a: int, b: int): int
    requires b > 0
  {
    if a >= 0 then a % b else -((-a) % b)
  }

  function CDiv32(a: int32, b: int32): (r: int32)
    requires b > 0
    ensures r as int == CDiv(a as int, b as int)
  {
    CDiv(a as int, b as int) as int32
  }
}
