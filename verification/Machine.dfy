/** Machine integers and the arithmetic that goes with them. */
module Machine {
  import opened Bits

  type uint16 = x: int | 0 <= x < 0x1_0000
  type uint32 = x: int | 0 <= x < 0x1_0000_0000
  type int16 = x: int | -0x8000 <= x < 0x8000
  type int32 = x: int | -0x8000_0000 <= x < 0x8000_0000

  function ToUint16(x: int): uint16 {
    x % 0x1_0000
  }

  function ToUint32(x: int): uint32 {
    x % 0x1_0000_0000
  }

  function ToInt32(x: uint32): int32 {
    if x < 0x8000_0000 then x else x - 0x1_0000_0000
  }

  function ToInt16(x: int): int16 {
    var low := x % 0x1_0000;
    if low < 0x8000 then low else low - 0x1_0000
  }

  /** A 16-bit word, low byte first. */
  function U16(s: seq<byte>, at: nat): (w: nat)
    requires at + 2 <= |s|
    ensures w < 0x1_0000
  {
    (s[at] as int) + 0x100 * (s[at + 1] as int)
  }

  /** C's division, which truncates towards zero. */
  function Quot(a: int, b: int): (q: int)
    requires b > 0
    ensures a >= 0 ==> b * q <= a < b * q + b
    ensures a < 0 ==> b * q - b < a <= b * q
  {
    if a >= 0 then a / b else -(-a / b)
  }

  function Rem(a: int, b: int): int
    requires b > 0
  {
    a - b * Quot(a, b)
  }

  function Min(a: int, b: int): int {
    if a < b then a else b
  }

  function Max(a: int, b: int): int {
    if a < b then b else a
  }

  function CeilDiv(d: nat, s: nat): nat
    requires s > 0
  {
    (d + s - 1) / s
  }

  /** The first multiple of `s` that reaches `d`. */
  lemma CeilDivIs(d: nat, s: nat)
    requires s > 0
    ensures var q := CeilDiv(d, s); q * s >= d && (d > 0 ==> q > 0 && (q - 1) * s < d)
  {
    var q := CeilDiv(d, s);
    assert d + s - 1 == s * q + (d + s - 1) % s;
  }

  lemma TimesMonotone(m: int, n: int, s: nat)
    requires m <= n
    ensures m * s <= n * s
  {
  }
}
