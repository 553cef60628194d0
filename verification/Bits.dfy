/** Bit strings, least significant bit first, and the numbers and bytes they stand for. */
module Bits {
  type byte = b: int | 0 <= b < 256

  function Pow2(n: nat): (p: nat)
    ensures p > 0
  {
    if n == 0 then 1 else 2 * Pow2(n - 1)
  }

  /** A key-on register of the OPL without its key bit, 0x20. */
  function ClearKey(b: byte): byte {
    b - b / 0x20 % 2 * 0x20
  }

  function ShiftRight(v: nat, n: nat): nat
    decreases n
  {
    if n == 0 then v else ShiftRight(v / 2, n - 1)
  }

  function Val(b: seq<bool>): nat {
    if b == [] then 0 else (if b[0] then 1 else 0) + 2 * Val(b[1..])
  }

  /** The low `n` bits of `v`. */
  function ToBits(v: nat, n: nat): (b: seq<bool>)
    ensures |b| == n
  {
    if n == 0 then [] else [v % 2 == 1] + ToBits(v / 2, n - 1)
  }

  function BytesBits(s: seq<byte>): (b: seq<bool>)
    ensures |b| == 8 * |s|
  {
    if s == [] then [] else ToBits(s[0], 8) + BytesBits(s[1..])
  }

  function Pack(b: seq<bool>): (s: seq<byte>)
    requires |b| % 8 == 0
    ensures 8 * |s| == |b|
  {
    if b == [] then []
    else
      ValBound(b[..8]);
      assert Pow2(8) == 256;
      [Val(b[..8])] + Pack(b[8..])
  }

  lemma {:induction false} ValBound(b: seq<bool>)
    ensures Val(b) < Pow2(|b|)
  {
    if b != [] { ValBound(b[1..]); }
  }

  lemma {:induction false} ValConcat(a: seq<bool>, b: seq<bool>)
    ensures Val(a + b) == Val(a) + Pow2(|a|) * Val(b)
  {
    if a == [] {
      assert a + b == b;
    } else {
      assert (a + b)[1..] == a[1..] + b;
      ValConcat(a[1..], b);
      MulAssoc(2, Pow2(|a| - 1), Val(b));
    }
  }

  lemma MulAssoc(x: int, y: int, z: int)
    ensures x * y * z == x * (y * z)
  {
  }

  /** Cutting a bit string is dividing its number. */
  lemma ValSplit(b: seq<bool>, n: nat)
    requires n <= |b|
    ensures Val(b) % Pow2(n) == Val(b[..n]) && Val(b) / Pow2(n) == Val(b[n..])
  {
    assert b == b[..n] + b[n..];
    ValConcat(b[..n], b[n..]);
    ValBound(b[..n]);
    DivModUnique(Val(b), Pow2(n), Val(b[n..]), Val(b[..n]));
  }

  lemma DivModUnique(v: int, p: int, q: int, r: int)
    requires p > 0 && v == r + p * q && 0 <= r < p
    ensures v / p == q && v % p == r
  {
    var d := v / p - q;
    assert v == p * (v / p) + v % p;
    assert p * d == r - v % p;
  }

  lemma {:induction false} ValOfBits(v: nat, n: nat)
    requires v < Pow2(n)
    ensures Val(ToBits(v, n)) == v
  {
    if n > 0 {
      ValOfBits(v / 2, n - 1);
      assert ToBits(v, n)[1..] == ToBits(v / 2, n - 1);
    }
  }

  lemma {:induction false} BitsOfVal(b: seq<bool>)
    ensures ToBits(Val(b), |b|) == b
  {
    if b != [] {
      BitsOfVal(b[1..]);
      assert b == [b[0]] + b[1..];
    }
  }

  lemma {:induction false} BytesBitsConcat(s: seq<byte>, t: seq<byte>)
    ensures BytesBits(s + t) == BytesBits(s) + BytesBits(t)
  {
    if s == [] {
      assert s + t == t;
    } else {
      assert (s + t)[1..] == s[1..] + t;
      BytesBitsConcat(s[1..], t);
    }
  }

  lemma {:induction false} PackedBits(b: seq<bool>)
    requires |b| % 8 == 0
    ensures BytesBits(Pack(b)) == b
  {
    if b != [] {
      PackedBits(b[8..]);
      BitsOfVal(b[..8]);
      assert Pack(b)[1..] == Pack(b[8..]);
      assert b == b[..8] + b[8..];
    }
  }

  lemma {:induction false} BytesBitsInjective(s: seq<byte>, t: seq<byte>)
    requires BytesBits(s) == BytesBits(t)
    ensures s == t
  {
    assert 8 * |s| == 8 * |t|;
    if s != [] {
      assert BytesBits(s)[..8] == ToBits(s[0], 8) && BytesBits(t)[..8] == ToBits(t[0], 8);
      assert BytesBits(s)[8..] == BytesBits(s[1..]) && BytesBits(t)[8..] == BytesBits(t[1..]);
      assert Pow2(8) == 256;
      ValOfBits(s[0], 8);
      ValOfBits(t[0], 8);
      BytesBitsInjective(s[1..], t[1..]);
      assert s == [s[0]] + s[1..] && t == [t[0]] + t[1..];
    }
  }

  lemma {:induction false} Pow2Monotone(m: nat, n: nat)
    requires m <= n
    ensures Pow2(m) <= Pow2(n)
  {
    if m < n { Pow2Monotone(m, n - 1); }
  }

  lemma AppendByte(bits: seq<bool>, b: byte)
    ensures Val(bits + ToBits(b, 8)) == Val(bits) + b * Pow2(|bits|)
  {
    hide Val, ToBits;
    assert Pow2(8) == 256;
    ValOfBits(b, 8);
    ValConcat(bits, ToBits(b, 8));
  }

  lemma {:induction false} PowSplit(m: nat, n: nat)
    ensures Pow2(m + n) == Pow2(m) * Pow2(n)
  {
    if m > 0 {
      PowSplit(m - 1, n);
      MulAssoc(2, Pow2(m - 1), Pow2(n));
    }
  }

  lemma PowersOfTwo(n: nat)
    ensures n >= 9 ==> Pow2(n) >= 512
    ensures Pow2(2) == 4 && Pow2(0) == 1 && Pow2(1) == 2 && Pow2(3) == 8
    ensures Pow2(4) == 0x10 && Pow2(8) == 0x100 && Pow2(16) == 0x10000 && Pow2(32) == 0x1_0000_0000
  {
    if n > 9 { PowersOfTwo(n - 1); }
    assert Pow2(9) == 512;
    assert Pow2(20) == 0x10_0000;
    assert Pow2(32) == 4096 * Pow2(20);
  }
}
