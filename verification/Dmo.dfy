/** dmo_unpacker of src/dmo.cpp: unpack_block and unpack, in place on the output buffer. */
module Dmo {
  import opened Wrappers
  import opened Bits
  import opened Machine
  import opened Lz
  import opened DmoSpec
  import opened DmoRoundTrip

  /** A part of a buffer, and what surrounds it. */
  ghost predicate SameAround(a: seq<byte>, b: seq<byte>, base: nat, end: nat) {
    base <= end <= |a| == |b| && a[..base] == b[..base] && a[end..] == b[end..]
  }

  lemma {:induction false} ForwardInPart(a: seq<byte>, base: nat, end: nat, to: nat, from: nat, n: nat)
    requires base <= end <= |a| && from <= to && base + to + n <= end
    ensures Forward(a, base + to, base + from, n)[base..end] == Forward(a[base..end], to, from, n)
    ensures SameAround(a, Forward(a, base + to, base + from, n), base, end)
    decreases n
  {
    if n > 0 {
      var b := a[base + to := a[base + from]];
      assert b[base..end] == a[base..end][to := a[base..end][from]];
      ForwardInPart(b, base, end, to + 1, from + 1, n - 1);
      assert b[..base] == a[..base] && b[end..] == a[end..];
    }
  }

  lemma OverwriteInPart(a: seq<byte>, base: nat, end: nat, at: nat, s: seq<byte>)
    requires base <= end <= |a| && base + at + |s| <= end
    ensures Overwrite(a, base + at, s)[base..end] == Overwrite(a[base..end], at, s)
    ensures SameAround(a, Overwrite(a, base + at, s), base, end)
  {
  }

  /** The byte-by-byte copy. */
  method CopyForward(obuf: array<byte>, to: nat, from: nat, n: nat)
    requires from <= to && to + n <= obuf.Length
    modifies obuf
    ensures obuf[..] == Forward(old(obuf[..]), to, from, n)
  {
    for i := 0 to n
      invariant Forward(obuf[..], to + i, from + i, n - i) == Forward(old(obuf[..]), to, from, n)
    {
      ghost var a := obuf[..];
      obuf[to + i] := obuf[from + i];
      assert obuf[..] == a[to + i := a[from + i]];
    }
  }

  method CopyLiterals(obuf: array<byte>, at: nat, ibuf: seq<byte>, from: nat, n: nat)
    requires at + n <= obuf.Length && from + n <= |ibuf|
    modifies obuf
    ensures obuf[..] == Overwrite(old(obuf[..]), at, ibuf[from..from + n])
  {
    var lit, opos, ipos := n, at, from;
    while lit > 0
      invariant 0 <= lit <= n && opos == at + n - lit && ipos == from + n - lit
      invariant obuf[..] == Overwrite(old(obuf[..]), at, ibuf[from..ipos])
    {
      obuf[opos] := ibuf[ipos];
      opos, ipos, lit := opos + 1, ipos + 1, lit - 1;
    }
  }

  /** Carries out one token. */
  method TakeToken(obuf: array<byte>, base: nat, olen: nat, opos: nat, f: Fields, ibuf: seq<byte>, next: nat)
    requires base + olen <= obuf.Length && next + f.lit <= |ibuf| && opos + f.cpy + f.lit <= olen && f.ofs <= opos
    modifies obuf
    ensures obuf[base..base + olen] == Taken(old(obuf[base..base + olen]), opos, f, ibuf[next..next + f.lit])
    ensures SameAround(old(obuf[..]), obuf[..], base, base + olen)
  {
    hide Forward, Overwrite;
    ghost var end, a := base + olen, obuf[..];
    CopyForward(obuf, base + opos, base + (opos - f.ofs), f.cpy);
    ForwardInPart(a, base, end, opos, opos - f.ofs, f.cpy);
    ghost var b := obuf[..];
    CopyLiterals(obuf, base + (opos + f.cpy), ibuf, next, f.lit);
    OverwriteInPart(b, base, end, opos + f.cpy, ibuf[next..next + f.lit]);
    assert obuf[base..end] == obuf[..][base..end] && a[base..end] == old(obuf[base..end]);
  }

  /** Unpacks one block to obuf[base..base + olen); -1 if it is malformed or does not fit. */
  method UnpackBlock(ibuf: seq<byte>, obuf: array<byte>, base: nat, olen: nat) returns (n: int)
    requires base + olen <= obuf.Length
    modifies obuf
    ensures var r := Block(ibuf, 0, old(obuf[base..base + olen]), 0);
            if r == None then n == -1 else n == r.value.1 && obuf[base..base + olen] == r.value.0
    ensures SameAround(old(obuf[..]), obuf[..], base, base + olen)
  {
    hide Taken, FieldsOf;
    ghost var end := base + olen;
    ghost var goal := Block(ibuf, 0, obuf[base..end], 0);
    var ipos, opos := 0, 0;
    while ipos < |ibuf|
      invariant 0 <= ipos <= |ibuf| && 0 <= opos <= olen
      invariant Block(ibuf, ipos, obuf[base..end], opos) == goal
      invariant SameAround(old(obuf[..]), obuf[..], base, end)
    {
      var f := FieldsAt(ibuf, ipos);
      var next := ipos + f.size;
      if next + f.lit > |ibuf| || opos + f.cpy + f.lit > olen || f.ofs > opos {
        return -1;
      }
      TakeToken(obuf, base, olen, opos, f, ibuf, next);
      opos := opos + f.cpy + f.lit;
      ipos := next + f.lit;
    }
    n := opos;
  }

  /** What is left after `i` blocks, by its first block. */
  function BlocksFrom(ibuf: seq<byte>, at: nat, lengths: seq<nat>, i: nat, buf: seq<byte>, base: nat): Option<(seq<byte>, nat)>
    requires at <= |ibuf| && i <= |lengths| && base <= |buf|
  {
    Blocks(ibuf[at..], lengths[i..], buf, base)
  }

  lemma BlocksStep(ibuf: seq<byte>, at: nat, lengths: seq<nat>, i: nat, buf: seq<byte>, base: nat)
    requires at <= |ibuf| && i < |lengths| && base <= |buf|
    ensures var l := lengths[i];
            BlocksFrom(ibuf, at, lengths, i, buf, base) ==
              if l < 2 || l > |ibuf| - at then None
              else
                var r := Block(ibuf[at + 2..at + l], 0, buf[base..], 0);
                if r == None || r.value.1 != U16(ibuf, at) then None
                else BlocksFrom(ibuf, at + l, lengths, i + 1, buf[..base] + r.value.0, base + r.value.1)
  {
    hide Block;
    var l := lengths[i];
    assert lengths[i..][0] == l && lengths[i..][1..] == lengths[i + 1..];
    if 2 <= l <= |ibuf| - at {
      assert ibuf[at..][2..l] == ibuf[at + 2..at + l] && ibuf[at..][l..] == ibuf[at + l..];
    }
  }

  /** A block behind `base`, and what was there before. */
  lemma Joined(a: seq<byte>, b: seq<byte>, base: nat)
    requires base <= |a| && SameAround(a, b, base, |a|)
    ensures b == a[..base] + b[base..]
  {
  }

  /** Unpacks the block of `blen` bytes at `at`, which must come out at the length it declares. */
  method UnpackNext(ibuf: seq<byte>, at: nat, blen: nat, obuf: array<byte>, olen: nat) returns (ok: bool, bul: nat)
    requires at + 2 <= at + blen <= |ibuf| && olen <= obuf.Length
    modifies obuf
    ensures bul == U16(ibuf, at)
    ensures var r := Block(ibuf[at + 2..at + blen], 0, old(obuf[..])[olen..], 0);
            && ok == (r.Some? && r.value.1 == bul)
            && (ok ==> obuf[..] == old(obuf[..])[..olen] + r.value.0)
  {
    hide Block;
    ghost var a := obuf[..];
    assert obuf[olen..olen + (obuf.Length - olen)] == a[olen..];
    bul := U16(ibuf, at);
    var m := UnpackBlock(ibuf[at + 2..at + blen], obuf, olen, obuf.Length - olen);
    ok := m == bul;
    assert obuf[olen..olen + (obuf.Length - olen)] == obuf[..][olen..];
    Joined(a, obuf[..], olen);
  }

  /** Unpacks a whole module; 0 if anything about it is wrong. */
  method Unpack(ibuf: seq<byte>, obuf: array<byte>) returns (n: nat)
    modifies obuf
    ensures var r := Unpacked(ibuf, old(obuf[..]));
            if r == None then n == 0 else n == r.value.1 && obuf[..] == r.value.0
  {
    hide Block, Blocks, BlocksFrom;
    if |ibuf| < HEADER_SIZE + 2 {
      return 0;
    }
    var blockCount := U16(ibuf, HEADER_SIZE);
    var blockStart := HEADER_SIZE + 2 + 2 * blockCount;
    if |ibuf| < blockStart {
      return 0;
    }
    ghost var lengths := Lengths(ibuf, blockCount);
    ghost var goal := Unpacked(ibuf, obuf[..]);
    ModuleIsBlocks(ibuf, obuf[..]);
    var at: nat, olen: nat := blockStart, 0;
    for i := 0 to blockCount
      invariant at <= |ibuf| && olen <= obuf.Length
      invariant BlocksFrom(ibuf, at, lengths, i, obuf[..], olen) == goal
    {
      BlocksStep(ibuf, at, lengths, i, obuf[..], olen);
      var blen := U16(ibuf, HEADER_SIZE + 2 + 2 * i);
      if blen < 2 || blen > |ibuf| - at {
        return 0;
      }
      var ok, bul := UnpackNext(ibuf, at, blen, obuf, olen);
      if !ok {
        return 0;
      }
      olen := olen + bul;
      at := at + blen;
    }
    NoMoreBlocks(ibuf, at, lengths, obuf[..], olen);
    n := olen;
  }

  lemma ModuleIsBlocks(ibuf: seq<byte>, buf: seq<byte>)
    requires |ibuf| >= HEADER_SIZE + 2 && |ibuf| >= HEADER_SIZE + 2 + 2 * U16(ibuf, HEADER_SIZE)
    ensures var n := U16(ibuf, HEADER_SIZE);
            Unpacked(ibuf, buf) == BlocksFrom(ibuf, HEADER_SIZE + 2 + 2 * n, Lengths(ibuf, n), 0, buf, 0)
  {
    var l := Lengths(ibuf, U16(ibuf, HEADER_SIZE));
    assert l[0..] == l;
  }

  lemma NoMoreBlocks(ibuf: seq<byte>, at: nat, lengths: seq<nat>, buf: seq<byte>, base: nat)
    requires at <= |ibuf| && base <= |buf|
    ensures BlocksFrom(ibuf, at, lengths, |lengths|, buf, base) == Some((buf, base))
  {
  }
}
