/**
 * Fixed-width C integer types and the conversions between them, as the
 * session code uses them, plus an Option type for values the C code may
 * leave undefined.
 */
module Base {

  datatype Option<T> = None | Some(value: T)

  type Int8 = x: int | -0x80 <= x < 0x80
  type Int16 = x: int | -0x8000 <= x < 0x8000
  type Int32 = x: int | -0x8000_0000 <= x < 0x8000_0000
  type UInt32 = x: int | 0 <= x < 0x1_0000_0000

  /** Conversion of an int to int16_t: keeps the low 16 bits, two's complement. */
  function Wrap16(x: int): (r: Int16)
    ensures (r - x) % 0x1_0000 == 0
    ensures -0x8000 <= x < 0x8000 ==> r == x
  {
    var m := x % 0x1_0000;
    if m < 0x8000 then m else m - 0x1_0000
  }

  /** Conversion of an int to uint32_t: reduction modulo 2^32. */
  function WrapU32(x: int): (r: UInt32)
    ensures (r - x) % 0x1_0000_0000 == 0
    ensures 0 <= x < 0x1_0000_0000 ==> r == x
  {
    x % 0x1_0000_0000
  }

  /** C integer division, which truncates toward zero (Dafny's `/` is Euclidean). */
  function CDiv(a: int, b: int): (q: int)
    requires b > 0
    ensures a >= 0 ==> 0 <= q * b <= a < q * b + b
    ensures a < 0 ==> q * b - b < a <= q * b <= 0
  {
    var n := if a >= 0 then a else -a;
    assert n == (n / b) * b + n % b && 0 <= n % b < b;
    if a >= 0 then n / b else -(n / b)
  }

  /** Conversion of a double to an integer type: truncation toward zero. */
  function Truncate(r: real): (n: int)
    ensures r >= 0.0 ==> n as real <= r < n as real + 1.0
    ensures r < 0.0 ==> n as real - 1.0 < r <= n as real
  {
    if r >= 0.0 then r.Floor else -((-r).Floor)
  }

  /** Arithmetic right shift by 8 of a 16-bit sample, giving the 8-bit value kept. */
  function Shift8(v: Int16): (r: Int8)
    ensures 256 * r <= v < 256 * r + 256
  {
    v / 256
  }

  /** The boundary samples of the 16 -> 8 bit reduction. */
  lemma Shift8Boundaries()
    ensures Shift8(0) == 0 && Shift8(32767) == 127
    ensures Shift8(-32768) == -128 && Shift8(-1) == -1
  {
  }
}
