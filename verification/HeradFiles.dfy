/** Packed HERAD files, written down from their headers: what each prefix stands for, byte by byte
    and bit by bit, and that the formats of HeradSpec read them (src/herad.cpp). */
module HeradFiles {
  import opened Bits
  import opened Lz
  import opened HeradSpec
  import opened HeradRoundTrip

  /** A byte, or a copy of `count` bytes from `back` bytes before the end.  `prefix` 0, 1 and 2 are the
      three ways in which the bits in front of it begin. */
  datatype Piece =
    | One(prefix: nat, b: byte)
    | Near(prefix: nat, count: nat, back: nat)
    | Far(prefix: nat, count: nat, back: nat, long: bool)

  // What the pieces spell

  function Grown(out: seq<byte>, p: Piece): seq<byte> {
    match p
    case One(_, b) => out + [b]
    case Near(_, count, back) => if 1 <= back <= |out| then Copied(out, back, count) else out
    case Far(_, count, back, _) => if 1 <= back <= |out| then Copied(out, back, count) else out
  }

  function Spelled(out: seq<byte>, ps: seq<Piece>): seq<byte>
    decreases |ps|
  {
    if ps == [] then out else Spelled(Grown(out, ps[0]), ps[1..])
  }

  // How they are written: the copies carry their count less two, and their distance as its complement

  /** 0 for a byte, 1 for a near copy, 2 for a far copy. */
  function Kind(p: Piece): nat {
    match p
    case One(_, _) => 0
    case Near(_, _, _) => 1
    case Far(_, _, _, _) => 2
  }

  /** Whether a piece can be written after `n` bytes, with far counts of `c` bits. */
  predicate Fits(c: nat, n: nat, p: Piece)
    requires 1 <= c <= 15
  {
    match p
    case One(_, _) => true
    case Near(_, count, back) => 2 <= count <= 5 && 1 <= back <= n && back <= 256
    case Far(_, count, back, long) =>
      && 3 <= count && (if long then count <= 257 else count < Pow2(c) + 2)
      && 1 <= back <= n && back <= Pow2(16 - c)
  }

  function Word(w: nat): seq<Op> {
    [Byte(w % 256), Byte(w / 256 % 256)]
  }

  /** The word of a far copy: the low `c` bits hold the count, the others the distance. */
  function CountAndOffset(c: nat, count: nat, back: nat): nat
    requires 1 <= c <= 15 && back <= Pow2(16 - c)
  {
    Pow2(c) * (Pow2(16 - c) - back) + count
  }

  function Written(c: nat, p: Piece): seq<Op>
    requires 1 <= c <= 15
  {
    match p
    case One(_, b) => [Byte(b)]
    case Near(_, count, back) =>
      if 2 <= count <= 5 && 1 <= back <= 256 then [Bit(count >= 4), Bit(count % 2 == 1), Byte(256 - back)] else []
    case Far(_, count, back, long) =>
      if count < 2 || (long && count > 257) || back > Pow2(16 - c) then []
      else if long then Word(CountAndOffset(c, 0, back)) + [Byte(count - 2)]
      else Word(CountAndOffset(c, count - 2, back))
  }

  /** The end of a file: a far copy whose count byte is zero too. */
  function Ending(c: nat): seq<Op>
    requires 1 <= c <= 15
  {
    assert Pow2(16 - c) >= 1;
    Word(CountAndOffset(c, 0, 1)) + [Byte(0)]
  }

  // SQX files: bytes 2, 3 and 4 name what the prefixes 0, 10 and 11 stand for, byte 5 the count bits

  function SqxPrefix(prefix: nat): seq<Op> {
    if prefix == 0 then [Bit(false)] else if prefix == 1 then [Bit(true), Bit(false)] else [Bit(true), Bit(true)]
  }

  predicate SqxFits(header: seq<byte>, out: seq<byte>, ps: seq<Piece>)
    requires IsSqx(header)
    decreases |ps|
  {
    ps == [] ||
    (&& ps[0].prefix <= 2 && header[2 + ps[0].prefix] == Kind(ps[0])
     && Fits(header[5], |out|, ps[0])
     && SqxFits(header, Grown(out, ps[0]), ps[1..]))
  }

  function SqxOps(header: seq<byte>, ps: seq<Piece>, end: nat): seq<Op>
    requires IsSqx(header)
  {
    if ps == [] then SqxPrefix(end) + Ending(header[5])
    else SqxPrefix(ps[0].prefix) + (Written(header[5], ps[0]) + SqxOps(header, ps[1..], end))
  }

  /** A file that spells `ps`, with `end` the prefix of the far copy that ends it. */
  predicate IsSqxFile(data: seq<byte>, ps: seq<Piece>, end: nat) {
    && IsSqx(data) && end <= 2 && data[2 + end] == 2
    && SqxFits(data[..6], [], ps)
    && data[6..] == Emit(SqxOps(data[..6], ps, end), 0)
  }

  // HSQ files: 1 is a byte, 00 a near copy, 01 a far copy with three count bits

  function HsqPrefix(p: Piece): seq<Op> {
    match p
    case One(_, _) => [Bit(true)]
    case Near(_, _, _) => [Bit(false), Bit(false)]
    case Far(_, _, _, _) => [Bit(false), Bit(true)]
  }

  predicate HsqFits(out: seq<byte>, ps: seq<Piece>)
    decreases |ps|
  {
    ps == [] || (Fits(3, |out|, ps[0]) && HsqFits(Grown(out, ps[0]), ps[1..]))
  }

  function HsqOps(ps: seq<Piece>): seq<Op> {
    if ps == [] then [Bit(false), Bit(true)] + Ending(3)
    else HsqPrefix(ps[0]) + (Written(3, ps[0]) + HsqOps(ps[1..]))
  }

  predicate IsHsqFile(data: seq<byte>, ps: seq<Piece>) {
    |data| >= 6 && HsqFits([], ps) && data[6..] == Emit(HsqOps(ps), 0)
  }

  // The same as tokens of a format

  function TokenOf(p: Piece, slot: nat): Token {
    match p
    case One(_, b) => Lit(slot, b)
    case Near(_, count, back) => Short(slot, count >= 4, count % 2 == 1, back)
    case Far(_, count, back, long) =>
      if long then LongByte(slot, if count < 2 then 0 else count - 2, back) else Long(slot, if count < 2 then 0 else count - 2, back)
  }

  lemma WordSame(f: Format, count: nat, back: nat)
    requires FormatOk(f) && back <= Pow2(16 - f.countBits)
    ensures WordOps(FarWord(f, count, back)) == Word(CountAndOffset(f.countBits, count, back))
  {
    hide Pow2;
  }

  lemma TokenSame(f: Format, c: nat, out: seq<byte>, p: Piece, slot: nat)
    requires FormatOk(f) && f.countBits == c && Fits(c, |out|, p) && slot <= 2
    requires SlotMode(f, slot) == match p case One(_, _) => Literal case Near(_, _, _) => HeradSpec.Near case Far(_, _, _, _) => HeradSpec.Far
    ensures var t := TokenOf(p, slot);
            Legal(f, |out|, t) && Meaning(out, t) == Grown(out, p) && Body(f, t) == Written(c, p)
  {
    hide Pow2, Copied, FarWord, CountAndOffset, WordOps, Word, SlotMode;
    match p
    case One(_, b) =>
    case Near(_, count, back) =>
    case Far(_, count, back, long) =>
      WordSame(f, if long then 0 else count - 2, back);
  }

  lemma EndSame(f: Format, slot: nat)
    requires FormatOk(f)
    ensures Ending(f.countBits) == WordOps(FarWord(f, 0, 1)) + [Byte(0)]
  {
    hide Pow2;
    WordSame(f, 0, 1);
  }

  function SqxTokens(ps: seq<Piece>): seq<Token> {
    if ps == [] then [] else [TokenOf(ps[0], ps[0].prefix)] + SqxTokens(ps[1..])
  }

  lemma {:induction false} SqxSame(header: seq<byte>, out: seq<byte>, ps: seq<Piece>, end: nat)
    requires |header| == 6 && IsSqx(header) && SqxFits(header, out, ps) && end <= 2
    ensures var f, ts := Sqx(header), SqxTokens(ps);
            AllLegal(f, out, ts) && Text(out, ts) == Spelled(out, ps) && Ops(f, ts, end) == SqxOps(header, ps, end)
    decreases |ps|
  {
    hide Legal, Meaning, Grown, Body, Written, Ending, WordOps, FarWord, Pow2;
    var f := Sqx(header);
    if ps == [] {
      EndSame(f, end);
    } else {
      TokenSame(f, header[5], out, ps[0], ps[0].prefix);
      SqxSame(header, Grown(out, ps[0]), ps[1..], end);
    }
  }

  function HsqTokens(ps: seq<Piece>): seq<Token> {
    if ps == [] then [] else [TokenOf(ps[0], Kind(ps[0]))] + HsqTokens(ps[1..])
  }

  lemma {:induction false} HsqSame(out: seq<byte>, ps: seq<Piece>)
    requires HsqFits(out, ps)
    ensures var ts := HsqTokens(ps);
            AllLegal(HSQ, out, ts) && Text(out, ts) == Spelled(out, ps) && Ops(HSQ, ts, 2) == HsqOps(ps)
    decreases |ps|
  {
    hide Legal, Meaning, Grown, Body, Written, Ending, WordOps, FarWord, Pow2;
    if ps == [] {
      EndSame(HSQ, 2);
    } else {
      TokenSame(HSQ, 3, out, ps[0], Kind(ps[0]));
      HsqSame(Grown(out, ps[0]), ps[1..]);
    }
  }

  // Reading them

  /** Every SQX file is unpacked to what it spells, whatever its header names. */
  lemma SqxFileUnpacks(data: seq<byte>, ps: seq<Piece>, end: nat, cap: nat)
    requires IsSqxFile(data, ps, end) && |Spelled([], ps)| <= cap
    ensures Unpacked(data, Sqx(data), cap) == Done(Spelled([], ps))
  {
    hide Unpacked, Ops, SqxOps, AllLegal, Text, Spelled, SqxFits, Emit;
    var header := data[..6];
    SqxSame(header, [], ps, end);
    assert data == header + data[6..];
    UnpackInvertsPack(Sqx(header), header, SqxTokens(ps), end, cap);
  }

  /** Every HSQ file is unpacked to what it spells. */
  lemma HsqFileUnpacks(data: seq<byte>, ps: seq<Piece>, cap: nat)
    requires IsHsqFile(data, ps) && |Spelled([], ps)| <= cap
    ensures Unpacked(data, HSQ, cap) == Done(Spelled([], ps))
  {
    hide Unpacked, Ops, HsqOps, AllLegal, Text, Spelled, HsqFits, Emit;
    var header := data[..6];
    HsqSame([], ps);
    assert data == header + data[6..];
    UnpackInvertsPack(HSQ, header, HsqTokens(ps), 2, cap);
  }

  lemma BytesStay(a: byte, b: byte, c: byte, k: nat)
    ensures Emit([Byte(a), Byte(b), Byte(c)], k) == [a, b, c]
    ensures NextBits([Byte(a), Byte(b), Byte(c)], k) == seq(k, _ => false)
  {
    var r1, r2 := [Byte(b), Byte(c)], [Byte(c)];
    assert [Byte(a), Byte(b), Byte(c)][1..] == r1 && r1[1..] == r2 && r2[1..] == [];
    assert Emit(r2, k) == [c] && Emit(r1, k) == [b] + Emit(r2, k);
    assert NextBits(r2, k) == NextBits([], k) == seq(k, _ => false);
    assert NextBits(r1, k) == NextBits(r2, k);
  }

  lemma {:induction false} NoBits(n: nat)
    ensures Val(seq(n, _ => false)) == 0
  {
    if n > 0 {
      assert seq(n, _ => false)[1..] == seq(n - 1, _ => false);
      NoBits(n - 1);
    }
  }

  lemma SixIsThePack(bits: seq<bool>)
    requires bits == [false, true, true] + seq(13, _ => false)
    ensures Pack(bits) == [6, 0]
  {
    hide Val;
    var lo, hi := bits[..8], bits[8..];
    assert hi == seq(8, _ => false) && hi[..8] == hi && hi[8..] == [];
    assert Val(lo) == 6 by { LowThree(lo); }
    NoBits(8);
    assert Pack(bits) == [Val(lo)] + Pack(hi) && Pack(hi) == [Val(hi)] + Pack([]);
  }

  lemma LowThree(bits: seq<bool>)
    requires bits == [false, true, true] + seq(5, _ => false)
    ensures Val(bits) == 6
  {
    assert bits[1..][1..][1..] == seq(5, _ => false);
    NoBits(5);
    hide Val;
    ValStep(bits);
    ValStep(bits[1..]);
    ValStep(bits[1..][1..]);
  }

  lemma ValStep(b: seq<bool>)
    ensures b != [] ==> Val(b) == (if b[0] then 1 else 0) + 2 * Val(b[1..])
  {
  }

  lemma SmallOps(b: byte)
    ensures var header, ps := [0, 0, 0, 1, 2, 3], [One(0, b)];
            && SqxFits(header, [], ps)
            && SqxOps(header, ps, 2) == [Bit(false), Byte(b), Bit(true), Bit(true), Byte(0xF8), Byte(0xFF), Byte(0)]
  {
    var header, ps := [0, 0, 0, 1, 2, 3], [One(0, b)];
    assert Pow2(3) == 8 && Pow2(13) == 8192;
    hide Pow2;
    assert Ending(3) == [Byte(0xF8), Byte(0xFF), Byte(0)];
    assert ps[1..] == [];
    assert SqxOps(header, [], 2) == [Bit(true), Bit(true), Byte(0xF8), Byte(0xFF), Byte(0)];
  }

  lemma SmallEmit(b: byte)
    ensures Emit([Bit(false), Byte(b), Bit(true), Bit(true), Byte(0xF8), Byte(0xFF), Byte(0)], 0) == [6, 0, b, 0xF8, 0xFF, 0]
  {
    hide Pack;
    var ending := [Byte(0xF8), Byte(0xFF), Byte(0)];
    var r3 := [Bit(true)] + ending;
    var r2 := [Bit(true)] + r3;
    var r1 := [Byte(b)] + r2;
    var ops := [Bit(false)] + r1;
    assert ops[1..] == r1 && r1[1..] == r2 && r2[1..] == r3 && r3[1..] == ending;
    BytesStay(0xF8, 0xFF, 0, 13);
    assert NextBits(r3, 14) == [true] + NextBits(ending, 13);
    assert NextBits(r2, 15) == [true] + NextBits(r3, 14);
    assert NextBits(ops, 16) == [false] + NextBits(r1, 15) && NextBits(r1, 15) == NextBits(r2, 15);
    SixIsThePack(NextBits(ops, 16));
    hide NextBits;
    assert Emit(r2, 15) == Emit(r3, 14) == Emit(ending, 13);
    assert Emit(r1, 15) == [b] + Emit(r2, 15);
    assert Emit(ops, 0) == [6, 0] + Emit(r1, 15);
    assert ops == [Bit(false), Byte(b), Bit(true), Bit(true), Byte(0xF8), Byte(0xFF), Byte(0)];
  }

  /** The smallest file with all of it: a word of flag bits, first bit lowest, in front of the byte it
      announces, then the far copy that ends the data. */
  lemma SmallFile(b: byte)
    ensures IsSqxFile([0, 0, 0, 1, 2, 3, 6, 0, b, 0xF8, 0xFF, 0], [One(0, b)], 2)
  {
    hide SqxFits, SqxOps, Emit;
    var data := [0, 0, 0, 1, 2, 3, 6, 0, b, 0xF8, 0xFF, 0];
    assert data[..6] == [0, 0, 0, 1, 2, 3] && data[6..] == [6, 0, b, 0xF8, 0xFF, 0];
    SmallOps(b);
    SmallEmit(b);
  }
}
