/** TwinTeam modules: a table of block lengths and the blocks, unpacked one behind the other. */
module DmoModule {
  import opened Wrappers
  import opened Bits
  import opened Machine
  import opened Lz
  import opened DmoSpec
  import opened DmoRoundTrip

  function Word(w: nat): seq<byte>
    requires w < 0x1_0000
  {
    [w % 0x100, w / 0x100]
  }

  lemma WordReads(s: seq<byte>, at: nat)
    requires at + 2 <= |s|
    ensures Word(U16(s, at)) == s[at..at + 2]
  {
  }

  lemma WordWritten(s: seq<byte>, at: nat, w: nat)
    requires w < 0x1_0000 && at + 2 <= |s| && s[at..at + 2] == Word(w)
    ensures U16(s, at) == w
  {
    assert s[at] == s[at..at + 2][0] && s[at + 1] == s[at..at + 2][1];
  }

  /** A block of tokens that stay inside their own output, whose lengths fit the format. */
  ghost predicate BlockOk(ts: seq<Token>) {
    AllFit(ts) && InBounds(ts, 0, Size(ts)) && Size(ts) < 0x1_0000 && |PackedAll(ts)| + 2 < 0x1_0000
  }

  /** The length it unpacks to, and the tokens. */
  ghost function BlockBytes(ts: seq<Token>): (s: seq<byte>)
    requires BlockOk(ts)
    ensures 2 <= |s| < 0x1_0000
  {
    Word(Size(ts)) + PackedAll(ts)
  }

  ghost predicate BlocksOk(bs: seq<seq<Token>>) {
    forall i :: 0 <= i < |bs| ==> BlockOk(bs[i])
  }

  ghost function BlocksBytes(bs: seq<seq<Token>>): seq<byte>
    requires BlocksOk(bs)
  {
    if bs == [] then [] else BlockBytes(bs[0]) + BlocksBytes(bs[1..])
  }

  ghost function LengthsOf(bs: seq<seq<Token>>): (l: seq<nat>)
    requires BlocksOk(bs)
    ensures |l| == |bs| && forall i :: 0 <= i < |bs| ==> l[i] == |BlockBytes(bs[i])|
  {
    seq(|bs|, i requires 0 <= i < |bs| => |BlockBytes(bs[i])|)
  }

  ghost function Table(bs: seq<seq<Token>>): (t: seq<byte>)
    requires BlocksOk(bs)
    ensures |t| == 2 * |bs|
  {
    if bs == [] then [] else Word(|BlockBytes(bs[0])|) + Table(bs[1..])
  }

  /** A module begins with any header, the table of its blocks, and the blocks; what follows them is
      not looked at. */
  ghost predicate IsModule(s: seq<byte>, bs: seq<seq<Token>>) {
    && |bs| < 0x1_0000 && BlocksOk(bs) && |s| >= 12
    && Word(|bs|) + Table(bs) + BlocksBytes(bs) <= s[12..]
  }

  /** The length of all output. */
  function TotalSize(bs: seq<seq<Token>>): nat {
    if bs == [] then 0 else Size(bs[0]) + TotalSize(bs[1..])
  }

  /** The outputs of the blocks, one behind the other, over what the buffer held. */
  function AllTextOver(under: seq<byte>, bs: seq<seq<Token>>): seq<byte>
    decreases |bs|
  {
    if bs == [] then []
    else
      var text := TextOver(under, [], bs[0]);
      text + AllTextOver(if |text| <= |under| then under[|text|..] else [], bs[1..])
  }

  /** The LZ77 meanings of the blocks. */
  function AllText(bs: seq<seq<Token>>): seq<byte> {
    if bs == [] then [] else Text([], bs[0]) + AllText(bs[1..])
  }

  lemma {:induction false} BackwardIsAllText(under: seq<byte>, bs: seq<seq<Token>>)
    requires forall i :: 0 <= i < |bs| ==> Backward(bs[i])
    ensures AllTextOver(under, bs) == AllText(bs)
    decreases |bs|
  {
    hide TextOver, Text, Backward;
    if bs != [] {
      var text := TextOver(under, [], bs[0]);
      BackwardIsText(under, [], bs[0]);
      BackwardIsAllText(if |text| <= |under| then under[|text|..] else [], bs[1..]);
    }
  }

  /** InBounds depends on the room only through the size of the output. */
  lemma {:induction false} InBoundsIff(ts: seq<Token>, n: nat, cap: nat)
    ensures InBounds(ts, n, cap) <==> InBounds(ts, n, n + Size(ts)) && (ts == [] || n + Size(ts) <= cap)
    decreases |ts|
  {
    if ts != [] {
      var m := n + Cpy(ts[0]) + |Lits(ts[0])|;
      InBoundsIff(ts[1..], m, cap);
    }
  }

  // From packed to unpacked

  lemma NoText(under: seq<byte>)
    ensures AllTextOver(under, []) == []
  {
  }

  /** One block at the front of `s`, unpacked to the rest of the buffer. */
  lemma OneBlock(s: seq<byte>, ts: seq<Token>, rest: seq<byte>, room: seq<byte>)
    requires BlockOk(ts) && s == BlockBytes(ts) + rest && Size(ts) <= |room|
    ensures var l := |BlockBytes(ts)|;
            && 2 <= l <= |s| && s[l..] == rest && U16(s, 0) == Size(ts)
            && |TextOver(room, [], ts)| == Size(ts)
            && Block(s[2..l], 0, room, 0) == Some((TextOver(room, [], ts) + room[Size(ts)..], Size(ts)))
  {
    hide Block, TextOver, InBounds, PackedAll, Size, Fits;
    var packed := PackedAll(ts);
    assert s[0..2] == Word(Size(ts));
    WordWritten(s, 0, Size(ts));
    assert s[2..|BlockBytes(ts)|] == packed && packed[0..] == packed && room[..0] == [];
    RoomEnough(ts, |room|);
    PackedIsUnpacked(packed, 0, ts, room, 0);
    var (r, n) := Block(packed, 0, room, 0).value;
    assert r == r[..n] + r[n..];
  }

  lemma RoomEnough(ts: seq<Token>, cap: nat)
    requires InBounds(ts, 0, Size(ts)) && Size(ts) <= cap
    ensures InBounds(ts, 0, cap)
  {
    hide InBounds;
    InBoundsIff(ts, 0, cap);
  }

  lemma {:induction false} BlocksUnpack(s: seq<byte>, bs: seq<seq<Token>>, rest: seq<byte>, buf: seq<byte>, base: nat)
    requires BlocksOk(bs) && base + TotalSize(bs) <= |buf| && s == BlocksBytes(bs) + rest
    ensures Blocks(s, LengthsOf(bs), buf, base).Some?
    ensures var (r, n) := Blocks(s, LengthsOf(bs), buf, base).value;
            n == base + TotalSize(bs) && r[..n] == buf[..base] + AllTextOver(buf[base..], bs) && r[n..] == buf[n..]
    decreases |bs|
  {
    hide BlockOk, Block, BlockBytes, TextOver, Size, AllTextOver;
    if bs == [] {
      assert AllTextOver(buf[base..], []) == [] by { NoText(buf[base..]); }
      assert buf[..base] + [] == buf[..base];
    } else {
      var ts, room := bs[0], buf[base..];
      var n := base + Size(ts);
      assert s == BlockBytes(ts) + (BlocksBytes(bs[1..]) + rest);
      OneBlock(s, ts, BlocksBytes(bs[1..]) + rest, room);
      var text := TextOver(room, [], ts);
      var buf' := buf[..base] + (text + room[Size(ts)..]);
      Spliced(buf, base, text);
      assert LengthsOf(bs)[1..] == LengthsOf(bs[1..]);
      BlocksUnpack(s[|BlockBytes(ts)|..], bs[1..], rest, buf', n);
      MoreText(buf[..base], room, bs);
    }
  }

  lemma Spliced(buf: seq<byte>, base: nat, text: seq<byte>)
    requires base + |text| <= |buf|
    ensures var room, n := buf[base..], base + |text|;
            var buf' := buf[..base] + (text + room[|text|..]);
            && |buf'| == |buf| && buf'[..n] == buf[..base] + text && buf'[n..] == room[|text|..]
            && forall m :: n <= m <= |buf| ==> buf'[m..] == buf[m..]
  {
    var room, n := buf[base..], base + |text|;
    var buf' := buf[..base] + (text + room[|text|..]);
    assert room[|text|..] == buf[n..];
    forall m | n <= m <= |buf|
      ensures buf'[m..] == buf[m..]
    {
      assert buf'[m..] == buf'[n..][m - n..] && buf[m..] == buf[n..][m - n..];
    }
  }

  lemma MoreText(front: seq<byte>, room: seq<byte>, bs: seq<seq<Token>>)
    requires bs != [] && |TextOver(room, [], bs[0])| <= |room|
    ensures var text := TextOver(room, [], bs[0]);
            front + AllTextOver(room, bs) == front + text + AllTextOver(room[|text|..], bs[1..])
  {
    hide TextOver;
  }

  lemma {:induction false} TableReads(bs: seq<seq<Token>>, k: nat)
    requires BlocksOk(bs) && k < |bs|
    ensures U16(Table(bs), 2 * k) == |BlockBytes(bs[k])|
  {
    hide BlockOk, BlockBytes;
    if k == 0 {
      assert Table(bs)[0..2] == Word(|BlockBytes(bs[0])|);
      WordWritten(Table(bs), 0, |BlockBytes(bs[0])|);
    } else {
      TableReads(bs[1..], k - 1);
      assert Table(bs)[2 * k] == Table(bs[1..])[2 * (k - 1)] && Table(bs)[2 * k + 1] == Table(bs[1..])[2 * (k - 1) + 1];
    }
  }

  /** Where the parts of a module lie. */
  lemma ModuleParts(s: seq<byte>, bs: seq<seq<Token>>) returns (rest: seq<byte>)
    requires IsModule(s, bs)
    ensures var start := HEADER_SIZE + 2 + 2 * |bs|;
            && start <= |s| && s[start..] == BlocksBytes(bs) + rest
            && U16(s, HEADER_SIZE) == |bs| && Lengths(s, |bs|) == LengthsOf(bs)
  {
    hide BlockOk, BlocksBytes, Table;
    var start, all, t := HEADER_SIZE + 2 + 2 * |bs|, s[HEADER_SIZE..], Table(bs);
    rest := all[2 + |t| + |BlocksBytes(bs)|..];
    assert all == Word(|bs|) + t + BlocksBytes(bs) + rest;
    assert s[start..] == all[2 + |t|..] == BlocksBytes(bs) + rest;
    assert s[HEADER_SIZE..HEADER_SIZE + 2] == all[..2] == Word(|bs|);
    WordWritten(s, HEADER_SIZE, |bs|);
    forall i | 0 <= i < |bs|
      ensures U16(s, HEADER_SIZE + 2 + 2 * i) == LengthsOf(bs)[i]
    {
      TableReads(bs, i);
      assert s[HEADER_SIZE + 2 + 2 * i] == all[2 + 2 * i] == t[2 * i];
      assert s[HEADER_SIZE + 2 + 2 * i + 1] == all[2 + 2 * i + 1] == t[2 * i + 1];
    }
    assert Lengths(s, |bs|) == LengthsOf(bs);
  }

  /** Unpacking a module gives the concatenation of what its blocks mean, and leaves the rest of the
      buffer alone. */
  lemma ModuleUnpacks(s: seq<byte>, bs: seq<seq<Token>>, buf: seq<byte>)
    requires IsModule(s, bs) && TotalSize(bs) <= |buf|
    ensures Unpacked(s, buf).Some?
    ensures var (r, n) := Unpacked(s, buf).value;
            n == TotalSize(bs) && r[..n] == AllTextOver(buf, bs) && r[n..] == buf[n..]
    ensures (forall i :: 0 <= i < |bs| ==> Backward(bs[i])) ==> AllTextOver(buf, bs) == AllText(bs)
  {
    hide Blocks, Table, BlocksBytes, AllText, AllTextOver, IsModule, Lengths, LengthsOf, Unpacked, U16, BlocksOk, TotalSize;
    IsModuleBlocks(s, bs);
    var rest := ModuleParts(s, bs);
    UnpackedIs(s, buf);
    BlocksUnpack(s[HEADER_SIZE + 2 + 2 * |bs|..], bs, rest, buf, 0);
    assert buf[..0] + AllTextOver(buf, bs) == AllTextOver(buf, bs) && buf[0..] == buf;
    if forall i :: 0 <= i < |bs| ==> Backward(bs[i]) { BackwardIsAllText(buf, bs); }
  }

  lemma UnpackedIs(s: seq<byte>, buf: seq<byte>)
    requires |s| >= HEADER_SIZE + 2 && |s| >= HEADER_SIZE + 2 + 2 * U16(s, HEADER_SIZE)
    ensures var n := U16(s, HEADER_SIZE);
            Unpacked(s, buf) == Blocks(s[HEADER_SIZE + 2 + 2 * n..], Lengths(s, n), buf, 0)
  {
    hide Blocks, U16;
  }

  lemma IsModuleBlocks(s: seq<byte>, bs: seq<seq<Token>>)
    requires IsModule(s, bs)
    ensures |bs| < 0x1_0000 && BlocksOk(bs)
  {
  }

  // From unpacked to packed

  /** The tokens of the blocks with given lengths. */
  function TokensOf(s: seq<byte>, lengths: seq<nat>): (bs: seq<seq<Token>>)
    decreases |lengths|
  {
    if lengths == [] || lengths[0] < 2 || lengths[0] > |s| then []
    else [TokensAt(s[2..lengths[0]], 0)] + TokensOf(s[lengths[0]..], lengths[1..])
  }

  lemma OneAccepted(s: seq<byte>, l: nat, room: seq<byte>)
    requires 2 <= l <= |s| && l < 0x1_0000
    requires var r := Block(s[2..l], 0, room, 0); r.Some? && r.value.1 == U16(s, 0)
    ensures var ts := TokensAt(s[2..l], 0);
            BlockOk(ts) && BlockBytes(ts) == s[..l] && Size(ts) == U16(s, 0) && Size(ts) <= |room|
  {
    hide Block, TokensAt, PackedAll, AllFit, InBounds, Size, TextOver;
    var t := s[2..l];
    var ts := TokensAt(t, 0);
    assert t[0..] == t;
    AcceptedIsPacked(t, 0, room, 0);
    PackedIsUnpacked(t, 0, ts, room, 0);
    InBoundsOwn(ts, |room|);
    WordReads(s, 0);
    assert s[..l] == s[0..2] + s[2..l];
  }

  lemma InBoundsOwn(ts: seq<Token>, cap: nat)
    requires InBounds(ts, 0, cap)
    ensures InBounds(ts, 0, Size(ts)) && Size(ts) <= cap
  {
    hide InBounds;
    InBoundsIff(ts, 0, cap);
    if ts == [] { assert Size(ts) == 0; }
  }

  /** Blocks that unpack are the packed forms of their tokens, each as long as it declares. */
  lemma {:induction false} BlocksAccepted(s: seq<byte>, lengths: seq<nat>, buf: seq<byte>, base: nat)
    requires base <= |buf| && (forall i :: 0 <= i < |lengths| ==> lengths[i] < 0x1_0000)
    requires Blocks(s, lengths, buf, base).Some?
    ensures var bs := TokensOf(s, lengths);
            BlocksOk(bs) && LengthsOf(bs) == lengths && BlocksBytes(bs) <= s && base + TotalSize(bs) <= |buf|
    decreases |lengths|
  {
    hide Block, BlockOk, BlockBytes, TokensAt, Size;
    if lengths != [] {
      var l, room := lengths[0], buf[base..];
      var ts, m := TokensAt(s[2..l], 0), U16(s, 0);
      OneAccepted(s, l, room);
      var buf' := buf[..base] + Block(s[2..l], 0, room, 0).value.0;
      BlocksAccepted(s[l..], lengths[1..], buf', base + m);
      BlockInFront(s, l, ts, TokensOf(s[l..], lengths[1..]), lengths);
    } else {
      assert LengthsOf([]) == [];
    }
  }

  lemma BlockInFront(s: seq<byte>, l: nat, ts: seq<Token>, bs: seq<seq<Token>>, lengths: seq<nat>)
    requires l <= |s| && BlockOk(ts) && BlockBytes(ts) == s[..l] && BlocksOk(bs) && BlocksBytes(bs) <= s[l..]
    requires lengths != [] && lengths[0] == l && LengthsOf(bs) == lengths[1..]
    ensures BlocksOk([ts] + bs) && BlocksBytes([ts] + bs) <= s && LengthsOf([ts] + bs) == lengths
    ensures TotalSize([ts] + bs) == Size(ts) + TotalSize(bs)
  {
    hide BlockOk, BlockBytes, Size;
    assert ([ts] + bs)[1..] == bs;
    assert s == s[..l] + s[l..];
    assert lengths == [l] + lengths[1..];
  }

  lemma {:induction false} TableIs(s: seq<byte>, at: nat, bs: seq<seq<Token>>)
    requires BlocksOk(bs) && at + 2 * |bs| <= |s|
    requires forall i :: 0 <= i < |bs| ==> U16(s, at + 2 * i) == |BlockBytes(bs[i])|
    ensures Table(bs) == s[at..at + 2 * |bs|]
    decreases |bs|
  {
    hide BlockOk, BlockBytes, U16;
    if bs != [] {
      WordReads(s, at);
      assert U16(s, at + 2 * 0) == |BlockBytes(bs[0])|;
      forall i | 0 <= i < |bs[1..]|
        ensures U16(s, at + 2 + 2 * i) == |BlockBytes(bs[1..][i])|
      {
        assert U16(s, at + 2 * (i + 1)) == |BlockBytes(bs[i + 1])|;
      }
      TableIs(s, at + 2, bs[1..]);
      assert s[at..at + 2 * |bs|] == s[at..at + 2] + s[at + 2..at + 2 + 2 * |bs[1..]|];
    }
  }

  /** The blocks of a module, as its header and table give them. */
  function ModuleTokens(s: seq<byte>): seq<seq<Token>> {
    if |s| < HEADER_SIZE + 2 || |s| < HEADER_SIZE + 2 + 2 * U16(s, HEADER_SIZE) then []
    else
      var n := U16(s, HEADER_SIZE);
      TokensOf(s[HEADER_SIZE + 2 + 2 * n..], Lengths(s, n))
  }

  /** Success means that the input is a module: every block is the packed form of tokens that stay in
      bounds and come out at the length the block declares.  The output is then the concatenation of
      what they mean. */
  lemma SuccessMeansDeclared(s: seq<byte>, buf: seq<byte>)
    requires Unpacked(s, buf).Some?
    ensures var bs := ModuleTokens(s);
            && IsModule(s, bs) && TotalSize(bs) <= |buf|
            && var (r, n) := Unpacked(s, buf).value;
               n == TotalSize(bs) && r[..n] == AllTextOver(buf, bs) && r[n..] == buf[n..]
  {
    hide Blocks, AllTextOver, IsModule, U16, TokensOf, BlocksOk, Lengths, TotalSize;
    var n := U16(s, HEADER_SIZE);
    UnpackedIs(s, buf);
    BlocksAccepted(s[HEADER_SIZE + 2 + 2 * n..], Lengths(s, n), buf, 0);
    ModuleFrom(s, n, ModuleTokens(s));
    hide Unpacked;
    ModuleUnpacks(s, ModuleTokens(s), buf);
  }

  /** Header, table and blocks put together again. */
  lemma ModuleFrom(s: seq<byte>, n: nat, bs: seq<seq<Token>>)
    requires |s| >= HEADER_SIZE + 2 + 2 * n && n == U16(s, HEADER_SIZE)
    requires BlocksOk(bs) && LengthsOf(bs) == Lengths(s, n) && BlocksBytes(bs) <= s[HEADER_SIZE + 2 + 2 * n..]
    ensures IsModule(s, bs)
  {
    hide BlocksBytes, Table, BlockOk, BlockBytes;
    var start := HEADER_SIZE + 2 + 2 * n;
    WordReads(s, HEADER_SIZE);
    assert |bs| == n;
    forall i | 0 <= i < |bs|
      ensures U16(s, HEADER_SIZE + 2 + 2 * i) == |BlockBytes(bs[i])|
    {
      assert Lengths(s, n)[i] == LengthsOf(bs)[i];
    }
    TableIs(s, HEADER_SIZE + 2, bs);
    assert s[HEADER_SIZE..] == s[HEADER_SIZE..HEADER_SIZE + 2] + s[HEADER_SIZE + 2..start] + s[start..];
  }

  /** So exactly the modules whose output fits are unpacked. */
  lemma UnpacksIff(s: seq<byte>, buf: seq<byte>)
    ensures Unpacked(s, buf).Some? <==> exists bs :: IsModule(s, bs) && TotalSize(bs) <= |buf|
  {
    hide Unpacked, IsModule, TotalSize, ModuleTokens;
    if Unpacked(s, buf).Some? {
      SuccessMeansDeclared(s, buf);
    }
    if bs :| IsModule(s, bs) && TotalSize(bs) <= |buf| {
      ModuleUnpacks(s, bs, buf);
    }
  }
}
