/** A reference packer for the HERAD formats, and the proof that unpacking inverts it.

    The packer must put each word of flag bits where the unpacker will fetch it: in front of the
    first literal byte that follows the last bit of the word before. */
module HeradRoundTrip {
  import opened Wrappers
  import opened Bits
  import opened Machine
  import opened Lz
  import opened HeradSpec

  /** `slot` says which of the format's three prefixes is used. */
  datatype Token =
    | Lit(slot: nat, b: byte)
    | Short(slot: nat, hi: bool, lo: bool, back: nat)   // a near copy
    | Long(slot: nat, count: nat, back: nat)            // a far copy, its count in the word
    | LongByte(slot: nat, count: nat, back: nat)        // a far copy, its count in a byte

  function SlotMode(f: Format, slot: nat): Mode {
    if slot == 0 then f.mode0 else if slot == 1 then f.mode1 else f.mode2
  }

  /** What a token may be in a format, after `n` bytes of output. */
  predicate Legal(f: Format, n: nat, t: Token)
    requires FormatOk(f)
  {
    && t.slot <= 2
    && match t
       case Lit(slot, _) => SlotMode(f, slot) == Literal
       case Short(slot, _, _, back) => SlotMode(f, slot) == Near && 1 <= back <= n && back <= 0x100
       case Long(slot, count, back) =>
         SlotMode(f, slot) == Far && 1 <= count < Pow2(f.countBits) && 1 <= back <= n && back <= Pow2(16 - f.countBits)
       case LongByte(slot, count, back) =>
         SlotMode(f, slot) == Far && 1 <= count <= 255 && 1 <= back <= n && back <= Pow2(16 - f.countBits)
  }

  /** What a token means. */
  function Meaning(out: seq<byte>, t: Token): seq<byte> {
    match t
    case Lit(_, b) => out + [b]
    case Short(_, hi, lo, back) =>
      if 1 <= back <= |out| then Copied(out, back, (if hi then 2 else 0) + (if lo then 1 else 0) + 2) else out
    case Long(_, count, back) => if 1 <= back <= |out| then Copied(out, back, count + 2) else out
    case LongByte(_, count, back) => if 1 <= back <= |out| then Copied(out, back, count + 2) else out
  }

  function Text(out: seq<byte>, ts: seq<Token>): seq<byte>
    decreases |ts|
  {
    if ts == [] then out else Text(Meaning(out, ts[0]), ts[1..])
  }

  predicate AllLegal(f: Format, out: seq<byte>, ts: seq<Token>)
    requires FormatOk(f)
    decreases |ts|
  {
    ts == [] || (Legal(f, |out|, ts[0]) && AllLegal(f, Meaning(out, ts[0]), ts[1..]))
  }

  // Packing: first as one sequence of bits and bytes, then with the bits gathered into words

  datatype Op = Bit(bit: bool) | Byte(b: byte)

  function Prefix(f: Format, slot: nat): seq<Op> {
    if slot == 0 then [Bit(f.first)] else [Bit(!f.first), Bit(slot == 2)]
  }

  function FarWord(f: Format, count: nat, back: nat): nat
    requires FormatOk(f) && back <= Pow2(16 - f.countBits)
  {
    count + Pow2(f.countBits) * (Pow2(16 - f.countBits) - back)
  }

  function WordOps(w: nat): seq<Op> {
    [Byte(w % 0x100), Byte(w / 0x100 % 0x100)]
  }

  function Body(f: Format, t: Token): seq<Op>
    requires FormatOk(f)
  {
    match t
    case Lit(_, b) => [Byte(b)]
    case Short(_, hi, lo, back) => if back <= 0x100 && back > 0 then [Bit(hi), Bit(lo), Byte(0x100 - back)] else []
    case Long(_, count, back) => if back <= Pow2(16 - f.countBits) then WordOps(FarWord(f, count, back)) else []
    case LongByte(_, count, back) =>
      if back <= Pow2(16 - f.countBits) && count < 0x100 then WordOps(FarWord(f, 0, back)) + [Byte(count)] else []
  }

  /** The tokens, and the far copy of length zero that ends the data. */
  function Ops(f: Format, ts: seq<Token>, end: nat): seq<Op>
    requires FormatOk(f)
  {
    if ts == [] then Prefix(f, end) + (WordOps(FarWord(f, 0, 1)) + [Byte(0)])
    else Prefix(f, ts[0].slot) + (Body(f, ts[0]) + Ops(f, ts[1..], end))
  }

  /** The first `n` bits among the operations, filled up with zeros. */
  function NextBits(ops: seq<Op>, n: nat): (b: seq<bool>)
    ensures |b| == n
    decreases |ops|
  {
    if n == 0 then []
    else if ops == [] then seq(n, _ => false)
    else if ops[0].Bit? then [ops[0].bit] + NextBits(ops[1..], n - 1)
    else NextBits(ops[1..], n)
  }

  /** `k` bits of the current word are still to be used. */
  function Emit(ops: seq<Op>, k: nat): seq<byte>
    decreases |ops|
  {
    if ops == [] then []
    else if ops[0].Byte? then [ops[0].b] + Emit(ops[1..], k)
    else if k > 0 then Emit(ops[1..], k - 1)
    else Pack(NextBits(ops, 16)) + Emit(ops[1..], 15)
  }

  function Packed(f: Format, header: seq<byte>, ts: seq<Token>, end: nat): seq<byte>
    requires FormatOk(f)
  {
    header + Emit(Ops(f, ts, end), 0)
  }

  // Unpacking

  /** The unpacker stands in front of `ops`. */
  predicate InStep(data: seq<byte>, s: State, ops: seq<Op>) {
    s.pos <= |data| && data[s.pos..] == Emit(ops, |s.bits|) && s.bits == NextBits(ops, |s.bits|)
  }

  lemma TakeBit(data: seq<byte>, s: State, b: bool, ops: seq<Op>) returns (t: State)
    requires InStep(data, s, [Bit(b)] + ops)
    ensures GetBit(data, s) == Some((b, t)) && InStep(data, t, ops) && t.out == s.out
  {
    var all := [Bit(b)] + ops;
    assert all[1..] == ops;
    if s.bits != [] {
      t := s.(bits := s.bits[1..]);
      assert s.bits == [b] + NextBits(ops, |s.bits| - 1);
    } else {
      var word := NextBits(all, 16);
      assert word == [b] + NextBits(ops, 15);
      var bytes := Pack(word);
      assert data[s.pos..] == bytes + Emit(ops, 15);
      PackedWord(word);
      assert data[s.pos] == data[s.pos..][0] == bytes[0] && data[s.pos + 1] == data[s.pos..][1] == bytes[1];
      t := s.(bits := word[1..], pos := s.pos + 2);
      assert data[s.pos + 2..] == data[s.pos..][2..];
    }
  }

  lemma PackedWord(word: seq<bool>)
    requires |word| == 16
    ensures |Pack(word)| == 2
    ensures ToBits(Pack(word)[0] as nat + 0x100 * Pack(word)[1] as nat, 16) == word
  {
    hide Val, ToBits, Pow2;
    var lo, hi := word[..8], word[8..];
    assert hi[..8] == hi && hi[8..] == [];
    assert Pack(word) == [Val(lo)] + Pack(hi) && Pack(hi) == [Val(hi)] + Pack([]);
    assert word == lo + hi;
    ValConcat(lo, hi);
    PowersOfTwo(8);
    BitsOfVal(word);
  }

  lemma TakeByte(data: seq<byte>, s: State, b: byte, ops: seq<Op>)
    requires InStep(data, s, [Byte(b)] + ops)
    ensures s.pos < |data| && data[s.pos] == b && InStep(data, s.(pos := s.pos + 1), ops)
  {
    var all := [Byte(b)] + ops;
    assert all[1..] == ops;
    assert data[s.pos..][0] == b;
    assert data[s.pos + 1..] == data[s.pos..][1..] == Emit(ops, |s.bits|);
    assert |s.bits| > 0 ==> NextBits(all, |s.bits|) == NextBits(ops, |s.bits|);
  }

  lemma TakeWord(data: seq<byte>, s: State, w: nat, ops: seq<Op>)
    requires InStep(data, s, WordOps(w) + ops) && w < 0x1_0000
    ensures s.pos + 2 <= |data| && U16(data, s.pos) == w && InStep(data, s.(pos := s.pos + 2), ops)
  {
    var hi := Byte(w / 0x100 % 0x100);
    assert WordOps(w) + ops == [Byte(w % 0x100)] + ([hi] + ops);
    TakeByte(data, s, w % 0x100, [hi] + ops);
    TakeByte(data, s.(pos := s.pos + 1), w / 0x100 % 0x100, ops);
  }

  lemma FarWordFields(f: Format, count: nat, back: nat)
    requires FormatOk(f) && count < Pow2(f.countBits) && 1 <= back <= Pow2(16 - f.countBits)
    ensures FarWord(f, count, back) < 0x1_0000
    ensures FarWord(f, count, back) % Pow2(f.countBits) == count
    ensures BackOf(FarWord(f, count, back), f.countBits) == back
  {
    var p, q := Pow2(f.countBits), Pow2(16 - f.countBits);
    PowSplit(f.countBits, 16 - f.countBits);
    PowersOfTwo(16);
    hide Pow2;
    assert p * (q - back) + p <= p * q by { MulMonotone(p, q - back + 1, q); }
    DivModUnique(FarWord(f, count, back), p, q - back, count);
  }

  lemma MulMonotone(p: nat, a: nat, b: nat)
    requires a <= b
    ensures p * a <= p * b && p * a == p * (a - 1) + p
  {
  }

  /** The prefix of a slot leads to its mode. */
  lemma TakePrefix(data: seq<byte>, f: Format, s: State, slot: nat, ops: seq<Op>, cap: nat) returns (t: State)
    requires FormatOk(f) && slot <= 2 && InStep(data, s, Prefix(f, slot) + ops)
    ensures InStep(data, t, ops) && t.out == s.out
    ensures Decode(data, f, s, cap) == Get(data, f, t, SlotMode(f, slot), cap)
  {
    hide InStep, GetBit, Get;
    if slot == 0 {
      t := TakeBit(data, s, f.first, ops);
    } else {
      assert Prefix(f, slot) + ops == [Bit(!f.first)] + ([Bit(slot == 2)] + ops);
      var u := TakeBit(data, s, !f.first, [Bit(slot == 2)] + ops);
      t := TakeBit(data, u, slot == 2, ops);
    }
  }

  lemma TakeBody(data: seq<byte>, f: Format, s: State, t: Token, ops: seq<Op>, cap: nat) returns (u: State)
    requires FormatOk(f) && Legal(f, |s.out|, t) && |Meaning(s.out, t)| <= cap
    requires InStep(data, s, Body(f, t) + ops)
    ensures Get(data, f, s, SlotMode(f, t.slot), cap) == Go(u) && InStep(data, u, ops) && u.out == Meaning(s.out, t)
  {
    hide InStep, GetBit, Copied, FarWord, BackOf, U16, Pow2;
    match t
    case Lit(_, b) =>
      TakeByte(data, s, b, ops);
      u := s.(pos := s.pos + 1, out := s.out + [b]);
      SameStep(data, s.(pos := s.pos + 1), u, ops);
    case Short(_, hi, lo, back) =>
      var o := Byte(0x100 - back);
      assert Body(f, t) + ops == [Bit(hi)] + ([Bit(lo)] + ([o] + ops));
      var s1 := TakeBit(data, s, hi, [Bit(lo)] + ([o] + ops));
      var s2 := TakeBit(data, s1, lo, [o] + ops);
      TakeByte(data, s2, 0x100 - back, ops);
      u := s2.(pos := s2.pos + 1, out := Meaning(s.out, t));
      SameStep(data, s2.(pos := s2.pos + 1), u, ops);
    case Long(_, count, back) =>
      FarWordFields(f, count, back);
      TakeWord(data, s, FarWord(f, count, back), ops);
      u := s.(pos := s.pos + 2, out := Meaning(s.out, t));
      SameStep(data, s.(pos := s.pos + 2), u, ops);
    case LongByte(_, count, back) =>
      FarWordFields(f, 0, back);
      assert Body(f, t) + ops == WordOps(FarWord(f, 0, back)) + ([Byte(count)] + ops);
      TakeWord(data, s, FarWord(f, 0, back), [Byte(count)] + ops);
      TakeByte(data, s.(pos := s.pos + 2), count, ops);
      u := s.(pos := s.pos + 3, out := Meaning(s.out, t));
      SameStep(data, s.(pos := s.pos + 3), u, ops);
  }

  lemma SameStep(data: seq<byte>, s: State, u: State, ops: seq<Op>)
    requires InStep(data, s, ops) && u.bits == s.bits && u.pos == s.pos
    ensures InStep(data, u, ops)
  {
  }

  lemma TakeEnd(data: seq<byte>, f: Format, s: State, cap: nat)
    requires FormatOk(f) && InStep(data, s, WordOps(FarWord(f, 0, 1)) + [Byte(0)])
    ensures Get(data, f, s, Far, cap) == Stop(Done(s.out))
  {
    FarWordFields(f, 0, 1);
    TakeWord(data, s, FarWord(f, 0, 1), [Byte(0)]);
    assert [Byte(0)] + [] == [Byte(0)];
    TakeByte(data, s.(pos := s.pos + 2), 0, []);
  }

  lemma {:induction false} TextGrows(out: seq<byte>, ts: seq<Token>)
    ensures |out| <= |Text(out, ts)|
    decreases |ts|
  {
    if ts != [] { TextGrows(Meaning(out, ts[0]), ts[1..]); }
  }

  lemma {:induction false} RunInverts(data: seq<byte>, f: Format, s: State, ts: seq<Token>, end: nat, cap: nat)
    requires FormatOk(f) && end <= 2 && SlotMode(f, end) == Far
    requires AllLegal(f, s.out, ts) && |Text(s.out, ts)| <= cap
    requires InStep(data, s, Ops(f, ts, end))
    ensures Run(data, f, s, cap) == Done(Text(s.out, ts))
    decreases |ts|
  {
    hide InStep, Get, Decode, Meaning, Body, Prefix, WordOps;
    if ts == [] {
      var t := TakePrefix(data, f, s, end, WordOps(FarWord(f, 0, 1)) + [Byte(0)], cap);
      TakeEnd(data, f, t, cap);
    } else {
      TextGrows(Meaning(s.out, ts[0]), ts[1..]);
      var t := TakePrefix(data, f, s, ts[0].slot, Body(f, ts[0]) + Ops(f, ts[1..], end), cap);
      var u := TakeBody(data, f, t, ts[0], Ops(f, ts[1..], end), cap);
      RunInverts(data, f, u, ts[1..], end, cap);
    }
  }

  /** For every format, every list of legal tokens unpacks to what it means. */
  lemma UnpackInvertsPack(f: Format, header: seq<byte>, ts: seq<Token>, end: nat, cap: nat)
    requires FormatOk(f) && |header| == 6 && end <= 2 && SlotMode(f, end) == Far
    requires AllLegal(f, [], ts) && |Text([], ts)| <= cap
    ensures Unpacked(Packed(f, header, ts, end), f, cap) == Done(Text([], ts))
  {
    var data, s := Packed(f, header, ts, end), State([], 6, []);
    assert data[6..] == Emit(Ops(f, ts, end), 0);
    assert InStep(data, s, Ops(f, ts, end));
    RunInverts(data, f, s, ts, end, cap);
  }
}
