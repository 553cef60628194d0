/** Unpacking TwinTeam blocks inverts packing, and accepts nothing that is not packed tokens. */
module DmoRoundTrip {
  import opened Wrappers
  import opened Bits
  import opened Machine
  import opened Lz
  import opened DmoSpec

  function Ofs(t: Token): nat {
    if t.Literals? then 0 else t.ofs
  }

  function Cpy(t: Token): nat {
    if t.Literals? then 0 else t.cpy
  }

  ghost predicate AllFit(ts: seq<Token>) {
    forall t :: t in ts ==> Fits(t)
  }

  /** The tokens stay inside the output so far, and inside the buffer. */
  predicate InBounds(ts: seq<Token>, n: nat, cap: nat)
    decreases |ts|
  {
    ts == [] ||
    (&& Ofs(ts[0]) <= n && n + Cpy(ts[0]) + |Lits(ts[0])| <= cap
     && InBounds(ts[1..], n + Cpy(ts[0]) + |Lits(ts[0])|, cap))
  }

  /** No copy from distance zero, which only the long format can express. */
  predicate Backward(ts: seq<Token>) {
    forall k :: 0 <= k < |ts| && !ts[k].Literals? ==> ts[k].ofs >= 1
  }

  function FieldsFor(t: Token): Fields
    requires Fits(t)
  {
    Fields(Ofs(t), Cpy(t), |Lits(t)|, |Head(t)|)
  }

  // The bit fields, both ways

  lemma Field(hi: nat, lo: nat, base: nat)
    requires lo < base
    ensures (hi * base + lo) / base == hi && (hi * base + lo) % base == lo
  {
    DivModUnique(hi * base + lo, base, hi, lo);
  }

  lemma CodeByte(kind: nat, x: nat)
    requires x < 64
    ensures (kind * 64 + x) / 64 == kind && (kind * 64 + x) % 64 == x
  {
  }

  lemma ThreeFields(b: nat, c: nat, l: nat)
    requires c < 8 && l < 16
    ensures var h := b * 128 + c * 16 + l; h / 128 == b && h / 16 % 8 == c && h % 16 == l
  {
    var h := b * 128 + c * 16 + l;
    Field(b * 8 + c, l, 16);
    Field(b, c, 8);
    Field(b, c * 16 + l, 128);
    assert h == (b * 8 + c) * 16 + l;
  }

  lemma OfsFields(ofs: nat, cpy: nat, par2: byte)
    requires Fits(OfsCopy(ofs, cpy))
    ensures var h := Head(OfsCopy(ofs, cpy)); FieldsOf(h[0], h[1], par2) == Fields(ofs, cpy, 0, 2)
  {
    var a, b := (ofs - 1) / 8, (ofs - 1) % 8;
    CodeByte(1, a);
    Field(b, cpy - 3, 32);
  }

  lemma ShortFields(ofs: nat, cpy: nat, lits: seq<byte>, par2: byte)
    requires Fits(ShortCopy(ofs, cpy, lits))
    ensures var h := Head(ShortCopy(ofs, cpy, lits)); FieldsOf(h[0], h[1], par2) == Fields(ofs, cpy, |lits|, 2)
  {
    var a, b := (ofs - 1) / 2, (ofs - 1) % 2;
    CodeByte(2, a);
    ThreeFields(b, cpy - 3, |lits|);
  }

  lemma LongFields(ofs: nat, cpy: nat, lits: seq<byte>)
    requires Fits(LongCopy(ofs, cpy, lits))
    ensures var h := Head(LongCopy(ofs, cpy, lits)); FieldsOf(h[0], h[1], h[2]) == Fields(ofs, cpy, |lits|, 3)
  {
    var a, b, c, d := ofs / 128, ofs % 128, (cpy - 4) / 16, (cpy - 4) % 16;
    CodeByte(3, a);
    Field(b, c, 2);
    Field(d, |lits|, 16);
  }

  lemma HeadThenFields(t: Token, par1: byte, par2: byte)
    requires Fits(t)
    ensures var h := Head(t);
            FieldsOf(h[0], if |h| > 1 then h[1] else par1, if |h| > 2 then h[2] else par2) == FieldsFor(t)
  {
    match t
    case Literals(lits) => CodeByte(0, |lits| - 1);
    case OfsCopy(ofs, cpy) => OfsFields(ofs, cpy, par2);
    case ShortCopy(ofs, cpy, lits) => ShortFields(ofs, cpy, lits, par2);
    case LongCopy(ofs, cpy, lits) => LongFields(ofs, cpy, lits);
  }

  /** The headers as numbers, high byte first: the format in the upper two bits, below them the distance, the
      length, and the number of literals. */
  lemma HeaderLayout(t: Token)
    requires Fits(t)
    ensures var h := Head(t);
            match t
            case Literals(lits) => h == [|lits| - 1]
            case OfsCopy(ofs, cpy) => |h| == 2 && 0x100 * (h[0] as int) + h[1] as int == 0x4000 + 32 * (ofs - 1) + (cpy - 3)
            case ShortCopy(ofs, cpy, lits) => |h| == 2 && 0x100 * (h[0] as int) + h[1] as int == 0x8000 + 128 * (ofs - 1) + 16 * (cpy - 3) + |lits|
            case LongCopy(ofs, cpy, lits) =>
              |h| == 3 && 0x1_0000 * (h[0] as int) + 0x100 * (h[1] as int) + h[2] as int == 0xC0_0000 + 512 * ofs + 16 * (cpy - 4) + |lits|
  {
  }

  /** The token with given fields, in the format that the first byte names. */
  function TokenOf(code: byte, f: Fields, lits: seq<byte>): Token {
    if code / 64 == 0 then Literals(lits)
    else if code / 64 == 1 then OfsCopy(f.ofs, f.cpy)
    else if code / 64 == 2 then ShortCopy(f.ofs, f.cpy, lits)
    else LongCopy(f.ofs, f.cpy, lits)
  }

  lemma OfsHead(code: byte, par1: byte, par2: byte)
    requires code / 64 == 1
    ensures var f := FieldsOf(code, par1, par2);
            Fits(OfsCopy(f.ofs, f.cpy)) && Head(OfsCopy(f.ofs, f.cpy)) == [code, par1] && f.size == 2 && f.lit == 0
  {
    Field(code % 64, par1 / 32, 8);
  }

  lemma ShortHead(code: byte, par1: byte, par2: byte, lits: seq<byte>)
    requires code / 64 == 2 && |lits| == FieldsOf(code, par1, par2).lit
    ensures var f := FieldsOf(code, par1, par2); var t := ShortCopy(f.ofs, f.cpy, lits);
            Fits(t) && Head(t) == [code, par1] && f.size == 2
  {
    Field(code % 64, par1 / 128, 2);
    assert par1 == par1 / 128 * 128 + par1 / 16 % 8 * 16 + par1 % 16;
  }

  lemma LongHead(code: byte, par1: byte, par2: byte, lits: seq<byte>)
    requires code / 64 == 3 && |lits| == FieldsOf(code, par1, par2).lit
    ensures var f := FieldsOf(code, par1, par2); var t := LongCopy(f.ofs, f.cpy, lits);
            Fits(t) && Head(t) == [code, par1, par2] && f.size == 3
  {
    Field(code % 64, par1 / 2, 128);
    Field(par1 % 2, par2 / 16, 16);
  }

  /** Any byte begins some token. */
  lemma FieldsThenHead(code: byte, par1: byte, par2: byte, lits: seq<byte>)
    requires |lits| == FieldsOf(code, par1, par2).lit
    ensures var f := FieldsOf(code, par1, par2); var t := TokenOf(code, f, lits);
            Fits(t) && Lits(t) == lits && Head(t) == [code, par1, par2][..f.size] && FieldsFor(t) == f
  {
    if code / 64 == 0 {
      assert FieldsOf(code, par1, par2) == Fields(0, 0, code + 1, 1);
    } else if code / 64 == 1 {
      OfsHead(code, par1, par2);
    } else if code / 64 == 2 {
      ShortHead(code, par1, par2, lits);
    } else {
      LongHead(code, par1, par2, lits);
    }
  }

  lemma HeaderReads(t: Token, s: seq<byte>, i: nat, rest: seq<byte>)
    requires Fits(t) && i <= |s| && s[i..] == Packed(t) + rest
    ensures i < |s| && FieldsAt(s, i) == FieldsFor(t)
    ensures i + |Packed(t)| <= |s| && s[i + |Head(t)|..i + |Packed(t)|] == Lits(t) && s[i + |Packed(t)|..] == rest
  {
    hide Head, FieldsOf, Lits, Fits, FieldsFor;
    var h := Head(t);
    HeadSize(t);
    Slices(s, i, h, Lits(t), rest);
    HeadThenFields(t, ByteAt(s, i + 1), ByteAt(s, i + 2));
    HeadBytes(s, i, h);
  }

  lemma HeadSize(t: Token)
    requires Fits(t)
    ensures 1 <= |Head(t)| <= 3
  {
  }

  lemma HeadBytes(s: seq<byte>, i: nat, h: seq<byte>)
    requires 1 <= |h| <= 3 && i + |h| <= |s| && s[i..i + |h|] == h
    ensures FieldsAt(s, i) == FieldsOf(h[0], if |h| > 1 then h[1] else ByteAt(s, i + 1), if |h| > 2 then h[2] else ByteAt(s, i + 2))
  {
    hide FieldsOf;
    assert s[i] == s[i..i + |h|][0];
    assert |h| > 1 ==> s[i + 1] == s[i..i + |h|][1];
    assert |h| > 2 ==> s[i + 2] == s[i..i + |h|][2];
  }

  lemma Slices(s: seq<byte>, i: nat, a: seq<byte>, b: seq<byte>, c: seq<byte>)
    requires i <= |s| && s[i..] == a + b + c
    ensures i + |a| + |b| <= |s|
    ensures s[i..i + |a|] == a && s[i + |a|..i + |a| + |b|] == b && s[i + |a| + |b|..] == c
  {
    assert s[i..i + |a|] == s[i..][..|a|];
    assert s[i + |a|..i + |a| + |b|] == s[i..][|a|..|a| + |b|];
    assert s[i + |a| + |b|..] == s[i..][|a| + |b|..];
  }

  function TokenAt(s: seq<byte>, i: nat): Token
    requires i < |s| && i + FieldsAt(s, i).size + FieldsAt(s, i).lit <= |s|
  {
    var f := FieldsAt(s, i);
    TokenOf(s[i], f, s[i + f.size..i + f.size + f.lit])
  }

  lemma TokenRepacks(s: seq<byte>, i: nat)
    requires i < |s| && i + FieldsAt(s, i).size + FieldsAt(s, i).lit <= |s|
    ensures var f, t := FieldsAt(s, i), TokenAt(s, i);
            Fits(t) && Packed(t) == s[i..i + f.size + f.lit] && FieldsFor(t) == f && |Lits(t)| == f.lit
  {
    hide Head, FieldsOf, TokenOf;
    var f := FieldsAt(s, i);
    var lits := s[i + f.size..i + f.size + f.lit];
    FieldsThenHead(s[i], ByteAt(s, i + 1), ByteAt(s, i + 2), lits);
    assert [s[i], ByteAt(s, i + 1), ByteAt(s, i + 2)][..f.size] == s[i..i + f.size];
    assert s[i..i + f.size + f.lit] == s[i..i + f.size] + lits;
  }

  function TokensAt(s: seq<byte>, i: nat): seq<Token>
    requires i <= |s|
    decreases |s| - i
  {
    if i == |s| then []
    else
      var f := FieldsAt(s, i);
      var next := i + f.size + f.lit;
      if next > |s| then [] else [TokenAt(s, i)] + TokensAt(s, next)
  }

  lemma AcceptMore(t: Token, ts: seq<Token>, o: nat, cap: nat)
    requires Fits(t) && AllFit(ts) && Ofs(t) <= o && o + Cpy(t) + |Lits(t)| <= cap && InBounds(ts, o + Cpy(t) + |Lits(t)|, cap)
    ensures AllFit([t] + ts) && PackedAll([t] + ts) == Packed(t) + PackedAll(ts) && InBounds([t] + ts, o, cap)
  {
    hide Fits, Packed;
    assert ([t] + ts)[1..] == ts;
  }

  /** Whatever is accepted is the packed form of tokens that stay in bounds. */
  lemma {:induction false} AcceptedIsPacked(s: seq<byte>, i: nat, buf: seq<byte>, o: nat)
    requires i <= |s| && o <= |buf| && Block(s, i, buf, o).Some?
    ensures AllFit(TokensAt(s, i)) && PackedAll(TokensAt(s, i)) == s[i..] && InBounds(TokensAt(s, i), o, |buf|)
    decreases |s| - i
  {
    hide FieldsAt, TokenAt, Packed, Fits, Taken, PackedAll, AllFit, InBounds;
    if i < |s| {
      var f := FieldsAt(s, i);
      var next := i + f.size + f.lit;
      TokenRepacks(s, i);
      assert f.ofs <= o && o + f.cpy + f.lit <= |buf|;
      AcceptedIsPacked(s, next, Taken(buf, o, f, s[i + f.size..next]), o + f.cpy + f.lit);
      AcceptMore(TokenAt(s, i), TokensAt(s, next), o, |buf|);
      assert TokensAt(s, i) == [TokenAt(s, i)] + TokensAt(s, next);
      assert s[i..] == s[i..next] + s[next..];
    } else {
      NoTokens(o, |buf|);
    }
  }

  lemma NoTokens(o: nat, cap: nat)
    ensures AllFit([]) && PackedAll([]) == [] && InBounds([], o, cap)
  {
  }

  /** What a copy does to the buffer. */
  lemma {:induction false} ForwardIsCopied(buf: seq<byte>, o: nat, ofs: nat, n: nat)
    requires ofs <= o && o + n <= |buf|
    ensures var r := Forward(buf, o, o - ofs, n);
            r[..o + n] == (if ofs == 0 then buf[..o + n] else Copied(buf[..o], ofs, n)) && r[o + n..] == buf[o + n..]
    decreases n
  {
    hide Copied;
    if n > 0 {
      var buf1 := buf[o := buf[o - ofs]];
      ForwardIsCopied(buf1, o + 1, ofs, n - 1);
      if ofs > 0 {
        CopyStep(buf[..o], ofs, n);
        assert buf1[..o + 1] == buf[..o] + [buf[..o][o - ofs]];
      } else {
        assert buf1 == buf;
      }
      assert buf1[o + n..] == buf[o + n..];
    } else if ofs > 0 {
      CopyStep(buf[..o], ofs, 0);
    }
  }

  /** Packed tokens are unpacked exactly when they stay in bounds; the buffer then holds what they
      mean over what it held before, and is otherwise untouched. */
  lemma {:induction false} PackedIsUnpacked(s: seq<byte>, i: nat, ts: seq<Token>, buf: seq<byte>, o: nat)
    requires AllFit(ts) && i <= |s| && o <= |buf| && s[i..] == PackedAll(ts)
    ensures Block(s, i, buf, o).Some? <==> InBounds(ts, o, |buf|)
    ensures Block(s, i, buf, o).Some? ==>
              var (r, n) := Block(s, i, buf, o).value;
              n == o + Size(ts) && r[..n] == TextOver(buf, buf[..o], ts) && r[n..] == buf[n..]
    decreases |ts|
  {
    hide Fits, FieldsAt, Packed, Taken, MeaningOver, Head;
    if ts != [] {
      var t := ts[0];
      HeaderReads(t, s, i, PackedAll(ts[1..]));
      PackedSize(t);
      if Ofs(t) <= o && o + Cpy(t) + |Lits(t)| <= |buf| {
        var n := o + Cpy(t) + |Lits(t)|;
        var buf2 := Taken(buf, o, FieldsFor(t), Lits(t));
        PackedIsUnpacked(s, i + |Packed(t)|, ts[1..], buf2, n);
        if InBounds(ts[1..], n, |buf|) {
          MeaningOnBuffer(t, buf, o);
          UnderBehind(buf2, buf, buf2[..n], ts[1..]);
          assert buf2[n + Size(ts[1..])..] == buf[n + Size(ts[1..])..];
        }
      }
    }
  }

  /** What the tokens put out, in bytes. */
  function Size(ts: seq<Token>): nat {
    if ts == [] then 0 else Cpy(ts[0]) + |Lits(ts[0])| + Size(ts[1..])
  }

  /** Only what is under the output still to come matters. */
  lemma {:induction false} UnderBehind(under: seq<byte>, under': seq<byte>, out: seq<byte>, ts: seq<Token>)
    requires |under| == |under'| && |out| <= |under| && under[|out|..] == under'[|out|..]
    requires InBounds(ts, |out|, |under|)
    ensures TextOver(under, out, ts) == TextOver(under', out, ts)
    decreases |ts|
  {
    hide MeaningOver;
    if ts != [] {
      var out1 := MeaningOver(under, out, ts[0]);
      MeaningSize(under, out, ts[0]);
      SameUnder(under, under', out, ts[0]);
      assert under[|out1|..] == under[|out|..][|out1| - |out|..] == under'[|out1|..];
      UnderBehind(under, under', out1, ts[1..]);
    }
  }

  lemma MeaningSize(under: seq<byte>, out: seq<byte>, t: Token)
    requires Ofs(t) <= |out| && |out| + Cpy(t) + |Lits(t)| <= |under|
    ensures |MeaningOver(under, out, t)| == |out| + Cpy(t) + |Lits(t)|
  {
  }

  lemma SameUnder(under: seq<byte>, under': seq<byte>, out: seq<byte>, t: Token)
    requires |under| == |under'| && |out| <= |under| && under[|out|..] == under'[|out|..]
    ensures MeaningOver(under, out, t) == MeaningOver(under', out, t)
  {
    if |out| + Cpy(t) <= |under| {
      assert under[|out|..|out| + Cpy(t)] == under[|out|..][..Cpy(t)] == under'[|out|..|out| + Cpy(t)];
    }
  }

  /** Without copies from distance zero it does not matter what was under the output: the meaning is
      that of LZ77. */
  lemma {:induction false} BackwardIsText(under: seq<byte>, out: seq<byte>, ts: seq<Token>)
    requires Backward(ts)
    ensures TextOver(under, out, ts) == Text(out, ts)
    decreases |ts|
  {
    hide Meaning;
    if ts != [] {
      assert Backward(ts[1..]);
      BackwardIsText(under, Meaning(out, ts[0]), ts[1..]);
    }
  }

  lemma PackedSize(t: Token)
    requires Fits(t)
    ensures |Packed(t)| == |Head(t)| + |Lits(t)|
  {
  }

  lemma MeaningOnBuffer(t: Token, buf: seq<byte>, o: nat)
    requires Fits(t) && Ofs(t) <= o && o + Cpy(t) + |Lits(t)| <= |buf|
    ensures var n, r := o + Cpy(t) + |Lits(t)|, Taken(buf, o, FieldsFor(t), Lits(t));
            r[..n] == MeaningOver(buf, buf[..o], t) && forall m :: n <= m <= |buf| ==> r[m..] == buf[m..]
  {
    hide Forward, Head, Overwrite, Fits, MeaningOver;
    var p := o + Cpy(t);
    var buf1 := Forward(buf, o, o - Ofs(t), Cpy(t));
    CopyOnBuffer(t, buf, o);
    OverwriteParts(buf, buf1, p, Lits(t));
  }

  lemma CopyOnBuffer(t: Token, buf: seq<byte>, o: nat)
    requires Ofs(t) <= o && o + Cpy(t) <= |buf|
    ensures var p, r := o + Cpy(t), Forward(buf, o, o - Ofs(t), Cpy(t));
            r[..p] + Lits(t) == MeaningOver(buf, buf[..o], t) && r[p..] == buf[p..]
  {
    hide Forward, Copied;
    var p := o + Cpy(t);
    ForwardIsCopied(buf, o, Ofs(t), Cpy(t));
    assert buf[..p] == buf[..o] + buf[o..p];
  }

  lemma OverwriteParts(buf: seq<byte>, buf1: seq<byte>, p: nat, lits: seq<byte>)
    requires p + |lits| <= |buf| == |buf1| && buf1[p..] == buf[p..]
    ensures Overwrite(buf1, p, lits)[..p + |lits|] == buf1[..p] + lits
    ensures forall m :: p + |lits| <= m <= |buf| ==> Overwrite(buf1, p, lits)[m..] == buf[m..]
  {
    forall m | p + |lits| <= m <= |buf|
      ensures Overwrite(buf1, p, lits)[m..] == buf[m..]
    {
      assert buf1[m..] == buf1[p..][m - p..] && buf[m..] == buf[p..][m - p..];
    }
  }

  /** A block is accepted if and only if it is the packed form of tokens that stay in bounds. */
  lemma AcceptsIff(s: seq<byte>, buf: seq<byte>)
    ensures Block(s, 0, buf, 0).Some? <==> exists ts :: AllFit(ts) && PackedAll(ts) == s && InBounds(ts, 0, |buf|)
  {
    assert s[0..] == s;
    if Block(s, 0, buf, 0).Some? {
      AcceptedIsPacked(s, 0, buf, 0);
      var ts := TokensAt(s, 0);
      assert AllFit(ts) && PackedAll(ts) == s && InBounds(ts, 0, |buf|);
    }
    if ts :| AllFit(ts) && PackedAll(ts) == s && InBounds(ts, 0, |buf|) {
      PackedIsUnpacked(s, 0, ts, buf, 0);
    }
  }
}
