/** The LZ77 blocks of TwinTeam modules (src/dmo.cpp): tokens, their four packed formats, and what
    unpacking does to a buffer. */
module DmoSpec {
  import opened Wrappers
  import opened Bits
  import opened Machine
  import opened Lz

  /** Copy `cpy` bytes from `ofs` bytes back, then take the literals.  The constructor names the
      packed format. */
  datatype Token =
    | Literals(lits: seq<byte>)
    | OfsCopy(ofs: nat, cpy: nat)
    | ShortCopy(ofs: nat, cpy: nat, lits: seq<byte>)
    | LongCopy(ofs: nat, cpy: nat, lits: seq<byte>)

  /** The values that fit the fields of the format. */
  predicate Fits(t: Token) {
    match t
    case Literals(lits) => 1 <= |lits| <= 64
    case OfsCopy(ofs, cpy) => 1 <= ofs <= 512 && 3 <= cpy <= 34
    case ShortCopy(ofs, cpy, lits) => 1 <= ofs <= 128 && 3 <= cpy <= 10 && |lits| <= 15
    case LongCopy(ofs, cpy, lits) => ofs <= 8191 && 4 <= cpy <= 35 && |lits| <= 15
  }

  function Head(t: Token): (h: seq<byte>)
    requires Fits(t)
    ensures 1 <= |h| <= 3
  {
    match t
    case Literals(lits) => [|lits| - 1]
    case OfsCopy(ofs, cpy) => [0x40 + (ofs - 1) / 8, (ofs - 1) % 8 * 32 + (cpy - 3)]
    case ShortCopy(ofs, cpy, lits) => [0x80 + (ofs - 1) / 2, (ofs - 1) % 2 * 128 + (cpy - 3) * 16 + |lits|]
    case LongCopy(ofs, cpy, lits) =>
      [0xC0 + ofs / 128, ofs % 128 * 2 + (cpy - 4) / 16, (cpy - 4) % 16 * 16 + |lits|]
  }

  function Lits(t: Token): seq<byte> {
    if t.OfsCopy? then [] else t.lits
  }

  function Packed(t: Token): seq<byte>
    requires Fits(t)
  {
    Head(t) + Lits(t)
  }

  function PackedAll(ts: seq<Token>): seq<byte>
    requires forall t :: t in ts ==> Fits(t)
  {
    if ts == [] then [] else Packed(ts[0]) + PackedAll(ts[1..])
  }

  /** LZ77: what the tokens mean. */
  function Meaning(out: seq<byte>, t: Token): seq<byte> {
    match t
    case Literals(lits) => out + lits
    case _ => (if 1 <= t.ofs <= |out| then Copied(out, t.ofs, t.cpy) else out) + Lits(t)
  }

  function Text(out: seq<byte>, ts: seq<Token>): seq<byte>
    decreases |ts|
  {
    if ts == [] then out else Text(Meaning(out, ts[0]), ts[1..])
  }

  /** What they mean where copies from distance zero are allowed for: these keep the bytes that were
      `under` them in the output buffer. */
  function MeaningOver(under: seq<byte>, out: seq<byte>, t: Token): seq<byte> {
    if !t.Literals? && t.ofs == 0 && |out| + t.cpy <= |under|
    then out + under[|out|..|out| + t.cpy] + Lits(t)
    else Meaning(out, t)
  }

  function TextOver(under: seq<byte>, out: seq<byte>, ts: seq<Token>): seq<byte>
    decreases |ts|
  {
    if ts == [] then out else TextOver(under, MeaningOver(under, out, ts[0]), ts[1..])
  }

  // Unpacking

  /** The fields of a token header, and its length. */
  datatype Fields = Fields(ofs: nat, cpy: nat, lit: nat, size: nat)

  function FieldsOf(code: byte, par1: byte, par2: byte): (f: Fields)
    ensures 1 <= f.size <= 3
  {
    if code / 64 == 0 then Fields(0, 0, code % 64 + 1, 1)
    else if code / 64 == 1 then Fields(code % 64 * 8 + par1 / 32 + 1, par1 % 32 + 3, 0, 2)
    else if code / 64 == 2 then Fields(code % 64 * 2 + par1 / 128 + 1, par1 / 16 % 8 + 3, par1 % 16, 2)
    else Fields(code % 64 * 128 + par1 / 2, par1 % 2 * 16 + par2 / 16 + 4, par2 % 16, 3)
  }

  function ByteAt(s: seq<byte>, i: nat): byte {
    if i < |s| then s[i] else 0
  }

  /** The header at `i`; parameters past the end count as zero. */
  function FieldsAt(s: seq<byte>, i: nat): (f: Fields)
    requires i < |s|
    ensures f.size >= 1
  {
    FieldsOf(s[i], ByteAt(s, i + 1), ByteAt(s, i + 2))
  }

  /** `n` bytes copied forward within a buffer, byte by byte. */
  function Forward(buf: seq<byte>, to: nat, from: nat, n: nat): (r: seq<byte>)
    requires from <= to && to + n <= |buf|
    ensures |r| == |buf|
    decreases n
  {
    if n == 0 then buf else Forward(buf[to := buf[from]], to + 1, from + 1, n - 1)
  }

  function Overwrite(buf: seq<byte>, at: nat, s: seq<byte>): (r: seq<byte>)
    requires at + |s| <= |buf|
    ensures |r| == |buf|
  {
    buf[..at] + s + buf[at + |s|..]
  }

  /** unpack_block from input position `i`, `buf[..o]` being written: the buffer and how much of it
      is written, or None for -1. */
  function Block(s: seq<byte>, i: nat, buf: seq<byte>, o: nat): (r: Option<(seq<byte>, nat)>)
    requires i <= |s| && o <= |buf|
    ensures r.Some? ==> |r.value.0| == |buf| && o <= r.value.1 <= |buf|
    decreases |s| - i
  {
    if i == |s| then Some((buf, o))
    else
      var f := FieldsAt(s, i);
      var next := i + f.size;
      if next + f.lit > |s| || o + f.cpy + f.lit > |buf| || f.ofs > o then None
      else Block(s, next + f.lit, Taken(buf, o, f, s[next..next + f.lit]), o + f.cpy + f.lit)
  }

  /** The buffer after one token. */
  function Taken(buf: seq<byte>, o: nat, f: Fields, lits: seq<byte>): (r: seq<byte>)
    requires f.ofs <= o && o + f.cpy + f.lit <= |buf| && |lits| == f.lit
    ensures |r| == |buf|
  {
    Overwrite(Forward(buf, o, o - f.ofs, f.cpy), o + f.cpy, lits)
  }

  // Whole modules

  const HEADER_SIZE: nat := 12

  /** The table of block lengths. */
  function Lengths(s: seq<byte>, n: nat): (l: seq<nat>)
    requires HEADER_SIZE + 2 + 2 * n <= |s|
    ensures |l| == n && forall i :: 0 <= i < n ==> l[i] < 0x1_0000
  {
    seq(n, i requires 0 <= i < n => U16(s, HEADER_SIZE + 2 + 2 * i))
  }

  /** The blocks in `s`, unpacked one behind the other from `base` on; each begins with the length
      it must unpack to. */
  function Blocks(s: seq<byte>, lengths: seq<nat>, buf: seq<byte>, base: nat): (r: Option<(seq<byte>, nat)>)
    requires base <= |buf|
    ensures r.Some? ==> |r.value.0| == |buf| && base <= r.value.1 <= |buf|
    decreases |lengths|
  {
    if lengths == [] then Some((buf, base))
    else if lengths[0] < 2 || lengths[0] > |s| then None
    else
      var r := Block(s[2..lengths[0]], 0, buf[base..], 0);
      if r == None || r.value.1 != U16(s, 0) then None
      else Blocks(s[lengths[0]..], lengths[1..], buf[..base] + r.value.0, base + r.value.1)
  }

  function Unpacked(s: seq<byte>, buf: seq<byte>): Option<(seq<byte>, nat)> {
    if |s| < HEADER_SIZE + 2 then None
    else
      var n := U16(s, HEADER_SIZE);
      if |s| < HEADER_SIZE + 2 + 2 * n then None
      else Blocks(s[HEADER_SIZE + 2 + 2 * n..], Lengths(s, n), buf, 0)
  }
}
