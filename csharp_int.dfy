/** Integer semantics of the C# scripts: 32-bit two's-complement `int`,
    32-bit `uint`, unchecked casts and wrapping arithmetic, division that
    truncates toward zero, and `Mathf.Clamp` / `Mathf.Abs` on reals. */
module CSharpInt {

  const TWO_32: int := 0x1_0000_0000
  const INT_MIN: int := -0x8000_0000
  const INT_MAX: int := 0x7FFF_FFFF
  const UINT_MAX: int := 0xFFFF_FFFF

  type Int32 = x: int | INT_MIN <= x <= INT_MAX
  type UInt32 = x: int | 0 <= x <= UINT_MAX

  /** The value an unchecked `int` computation yields when its exact result is `x`. */
  function WrapInt32(x: int): (r: Int32)
    ensures (x - r) % TWO_32 == 0
    ensures INT_MIN <= x <= INT_MAX ==> r == x
  {
    var m := (x - INT_MIN) % TWO_32;
    assert x - (m + INT_MIN) == TWO_32 * ((x - INT_MIN) / TWO_32);
    m + INT_MIN
  }

  /** The value an unchecked `uint` computation yields when its exact result is `x`. */
  function WrapUInt32(x: int): (r: UInt32)
    ensures (x - r) % TWO_32 == 0
    ensures 0 <= x <= UINT_MAX ==> r == x
  {
    assert x - x % TWO_32 == TWO_32 * (x / TWO_32);
    x % TWO_32
  }

  /** The unchecked cast `(int)u` of a `uint`. */
  function AsInt(u: UInt32): (r: Int32)
    ensures u <= INT_MAX ==> r == u
    ensures u > INT_MAX ==> r == u - TWO_32
  {
    WrapInt32(u)
  }

  /** C# `a / b` on `int` for a positive divisor: the quotient rounded toward zero. */
  function TruncDiv(a: int, b: int): (q: int)
    requires b > 0
    ensures a >= 0 ==> q >= 0 && b * q <= a < b * q + b
    ensures a < 0 ==> q <= 0 && b * q - b < a <= b * q
  {
    if a >= 0 then a / b else -((-a) / b)
  }

  /** C# `a % b` on `int` for a positive divisor: the remainder takes the sign of `a`. */
  function TruncRem(a: int, b: int): (r: int)
    requires b > 0
    ensures a == b * TruncDiv(a, b) + r
    ensures a >= 0 ==> 0 <= r < b
    ensures a < 0 ==> -b < r <= 0
  {
    a - b * TruncDiv(a, b)
  }

  /** `Mathf.Clamp(v, lo, hi)`. */
  function Clamp(v: real, lo: real, hi: real): (r: real)
    ensures lo <= hi ==> lo <= r <= hi
    ensures lo <= v <= hi ==> r == v
    ensures v < lo ==> r == lo
  {
    if v < lo then lo else if v > hi then hi else v
  }

  /** `Mathf.Abs(v)`. */
  function Abs(v: real): (r: real)
    ensures r >= 0.0 && (r == v || r == -v)
  {
    if v < 0.0 then -v else v
  }

  /** The smaller of two integers. The scripts do not call a minimum; it
      is used only in the statements of the model's properties. */
  function Min(a: int, b: int): (r: int)
    ensures r <= a && r <= b && (r == a || r == b)
  {
    if a < b then a else b
  }
}
