/** A reference encoder for the packed format, and the proof that unpacking inverts it.

    The encoder is given the phrases into which it should cut its text, so that the theorem
    covers every parsing strategy; it chooses the codes, inserts the codes that widen the code
    length when they are needed, and pads every block to whole bytes. */
module CffRoundTrip {
  import opened Wrappers
  import opened Bits
  import opened CffSpec

  /** A phrase, or `count` repetitions of the last `n` bytes followed by a phrase. */
  datatype Item = Word(w: seq<byte>) | Again(n: nat, count: nat, w: seq<byte>)

  datatype Block = Block(first: byte, items: seq<Item>)

  // What the items mean

  function Append(out: seq<byte>, item: Item): seq<byte> {
    match item
    case Word(w) => out + w
    case Again(n, count, w) => if n <= |out| then Repeat(out, n, count) + w else out
  }

  function Text(out: seq<byte>, items: seq<Item>): seq<byte>
    decreases |items|
  {
    if items == [] then out else Text(Append(out, items[0]), items[1..])
  }

  function Texts(out: seq<byte>, blocks: seq<Block>): seq<byte>
    decreases |blocks|
  {
    if blocks == [] then out else Texts(Text(out + [blocks[0].first], blocks[0].items), blocks[1..])
  }

  // When an encoder may use them

  predicate Known(dict: seq<seq<byte>>, w: seq<byte>) {
    |w| == 1 || (|w| > 0 && w in dict)
  }

  /** The dictionary in which an item's phrase is looked up: a plain phrase may be the very entry
      that it completes. */
  function DictFor(dict: seq<seq<byte>>, cur: seq<byte>, item: Item): seq<seq<byte>> {
    match item
    case Word(w) => if w == [] then dict else Expand(dict, cur + [w[0]])
    case Again(_, _, _) => dict
  }

  predicate Usable(dict: seq<seq<byte>>, cur: seq<byte>, out: seq<byte>, item: Item) {
    && Known(DictFor(dict, cur, item), item.w)
    && (item.Again? ==> 1 <= item.n <= 4 && item.n <= |out| && item.count <= 0x10000)
    && |Append(out, item)| <= OUTPUT_MAX
  }

  predicate Legal(dict: seq<seq<byte>>, cur: seq<byte>, out: seq<byte>, items: seq<Item>)
    decreases |items|
  {
    items == [] ||
    (&& Usable(dict, cur, out, items[0])
     && Legal(DictFor(dict, cur, items[0]), items[0].w, Append(out, items[0]), items[1..]))
  }

  predicate LegalBlocks(out: seq<byte>, blocks: seq<Block>)
    decreases |blocks|
  {
    blocks == [] ||
    (&& |out| + 1 <= OUTPUT_MAX
     && Legal([], [blocks[0].first], out + [blocks[0].first], blocks[0].items)
     && LegalBlocks(Text(out + [blocks[0].first], blocks[0].items), blocks[1..]))
  }

  // How it writes them

  function IndexIn(dict: seq<seq<byte>>, w: seq<byte>): (k: nat)
    requires w in dict
    ensures k < |dict| && dict[k] == w && w !in dict[..k]
  {
    if dict[0] == w then 0 else 1 + IndexIn(dict[1..], w)
  }

  function CodeOf(dict: seq<seq<byte>>, w: seq<byte>): nat
    requires Known(dict, w)
  {
    if |w| == 1 then w[0] + 4 else FIRST_ENTRY + IndexIn(dict, w)
  }

  /** The code length at which `code` fits, and the codes that widen up to it. */
  function WidthFor(width: nat, code: nat): (w: nat)
    requires width <= 16 && code < Pow2(16)
    ensures width <= w <= 16 && code < Pow2(w)
    decreases 16 - width
  {
    if code < Pow2(width) then width else WidthFor(width + 1, code)
  }

  function WidenBits(width: nat, to: nat): seq<bool>
    decreases to - width
  {
    if width >= to then [] else ToBits(2, width) + WidenBits(width + 1, to)
  }

  /** The length class of a repetition count: 4, 8, 16 or 32 bits. */
  function CountClass(count: nat): nat {
    if count < 0x10 then 0 else if count < 0x100 then 1 else if count < 0x10000 then 2 else 3
  }

  function ItemBits(width: nat, code: nat, item: Item): seq<bool> {
    match item
    case Word(_) => ToBits(code, width)
    case Again(n, count, _) =>
      if n == 0 then []
      else ToBits(3, width) + (ToBits(n - 1, 2) + (ToBits(CountClass(count), 2)
           + (ToBits(count, 4 * Pow2(CountClass(count))) + ToBits(code, width))))
  }

  /** The items of a block and the code that ends it. */
  function ItemsBits(width: nat, dict: seq<seq<byte>>, cur: seq<byte>, items: seq<Item>, final: nat): seq<bool>
    requires width <= 16
    decreases |items|
  {
    if items == [] then ToBits(final, width)
    else
      var item := items[0];
      var dict' := DictFor(dict, cur, item);
      if !Known(dict', item.w) || CodeOf(dict', item.w) >= Pow2(16) then []
      else
        var code := CodeOf(dict', item.w);
        var width' := WidthFor(width, code);
        WidenBits(width, width') + (ItemBits(width', code, item) + ItemsBits(width', dict', item.w, items[1..], final))
  }

  function Padded(b: seq<bool>): (p: seq<bool>)
    ensures |p| % 8 == 0 && |p| < |b| + 8 && |b| <= |p| && p[..|b|] == b
  {
    b + seq((8 - |b| % 8) % 8, _ => false)
  }

  function BlockBytes(b: Block, final: nat): seq<byte> {
    Pack(Padded(ToBits(b.first + 4, 9) + ItemsBits(9, [], [b.first], b.items, final)))
  }

  function BlocksBytes(blocks: seq<Block>): seq<byte>
    requires blocks != []
  {
    if |blocks| == 1 then BlockBytes(blocks[0], 0)
    else BlockBytes(blocks[0], 1) + BlocksBytes(blocks[1..])
  }

  function Encoded(blocks: seq<Block>): seq<byte>
    requires blocks != []
  {
    SIGNATURE + BlocksBytes(blocks)
  }

  // What every dictionary in use satisfies

  predicate DictOk(dict: seq<seq<byte>>) {
    HeapSize(dict) <= HEAP_MAX && forall k :: 0 <= k < |dict| ==> 1 <= |dict[k]| <= 0xEF
  }

  lemma ExpandOk(dict: seq<seq<byte>>, s: seq<byte>)
    requires DictOk(dict) && s != []
    ensures DictOk(Expand(dict, s)) && |Expand(dict, s)| <= 0x8000
  {
    assert (dict + [s])[..|dict|] == dict;
    EntriesFit(Expand(dict, s));
  }

  lemma CodeMeansPhrase(dict: seq<seq<byte>>, w: seq<byte>)
    requires DictOk(dict) && Known(dict, w)
    ensures 4 <= CodeOf(dict, w) < Pow2(16) && CodeOf(dict, w) < FIRST_ENTRY + |dict|
    ensures Translate(dict, CodeOf(dict, w)) == w
  {
    EntriesFit(dict);
    PowersOfTwo(16);
  }

  // Reading back one code

  lemma ReadCode(r: Reader, n: nat, code: nat, tail: seq<bool>) returns (r': Reader)
    requires Stream(r) == ToBits(code, n) + tail && code < Pow2(n) && |r.pending| < 8
    ensures GetCode(r, n) == Some((code, r')) && Stream(r') == tail && |r'.pending| < 8
  {
    ValOfBits(code, n);
    assert Stream(r)[..n] == ToBits(code, n) && Stream(r)[n..] == tail;
    r' := GetCode(r, n).value.1;
  }

  predicate Ready(s: State) {
    |s.r.pending| < 8 && 9 <= s.width <= 16 && DictOk(s.dict) && s.cur != []
  }

  lemma OneWider(s: State, tail: seq<bool>) returns (s': State)
    requires Ready(s) && s.width < 16 && Stream(s.r) == ToBits(2, s.width) + tail
    ensures s' == s.(r := s'.r, width := s.width + 1) && Ready(s') && Stream(s'.r) == tail && Run(s) == Run(s')
  {
    hide Run, Stream, GetCode, DictOk, ToBits, Pow2;
    PowersOfTwo(s.width);
    var r := ReadCode(s.r, s.width, 2, tail);
    s' := s.(r := r, width := s.width + 1);
    assert Decode(s) == Go(s');
    RunStep(s);
  }

  lemma {:induction false} WidenStep(s: State, to: nat, tail: seq<bool>) returns (t: State)
    requires Ready(s) && s.width <= to <= 16 && Stream(s.r) == WidenBits(s.width, to) + tail
    ensures t == s.(r := t.r, width := to) && Ready(t) && Stream(t.r) == tail
    ensures Run(s) == Run(t)
    decreases 16 - s.width
  {
    hide Run, Stream, GetCode, DictOk, ToBits;
    if s.width == to {
      t := s;
    } else {
      assert WidenBits(s.width, to) + tail == ToBits(2, s.width) + (WidenBits(s.width + 1, to) + tail);
      var s' := OneWider(s, WidenBits(s.width + 1, to) + tail);
      t := WidenStep(s', to, tail);
    }
  }

  /** A plain phrase, whether it is a single byte, an old entry, or the entry it completes. */
  lemma WordStep(s: State, w: seq<byte>, tail: seq<bool>) returns (t: State)
    requires Ready(s) && Usable(s.dict, s.cur, s.out, Word(w))
    requires var code := CodeOf(DictFor(s.dict, s.cur, Word(w)), w);
             code < Pow2(s.width) && Stream(s.r) == ToBits(code, s.width) + tail
    ensures Ready(t) && t == s.(r := t.r, dict := DictFor(s.dict, s.cur, Word(w)), cur := w, out := s.out + w)
    ensures Stream(t.r) == tail && Run(s) == Run(t)
  {
    hide Run, Stream, GetCode, DictOk, Pow2, ToBits;
    var dict := DictFor(s.dict, s.cur, Word(w));
    var code := CodeOf(dict, w);
    ExpandOk(s.dict, s.cur + [w[0]]);
    CodeMeansPhrase(dict, w);
    var r := ReadCode(s.r, s.width, code, tail);
    if code < FIRST_ENTRY + |s.dict| {
      assert Translate(s.dict, code) == w;
    } else {
      assert w == s.cur + [w[0]];
    }
    t := s.(r := r, dict := dict, cur := w, out := s.out + w);
    RunStep(s);
    assert Decode(s) == Go(t);
  }

  lemma Regroup5<T>(a: seq<T>, b: seq<T>, c: seq<T>, d: seq<T>, e: seq<T>, t: seq<T>)
    ensures (a + (b + (c + (d + e)))) + t == a + (b + (c + (d + (e + t))))
  {
    assert (d + e) + t == d + (e + t);
    assert (c + (d + e)) + t == c + (d + (e + t));
    assert (b + (c + (d + e))) + t == b + (c + (d + (e + t)));
  }

  /** The fields of a repetition, read in turn. */
  lemma AgainReads(r: Reader, width: nat, code: nat, item: Item, tail: seq<bool>)
      returns (r0: Reader, r1: Reader, r2: Reader, r3: Reader, r4: Reader)
    requires item.Again? && 1 <= item.n <= 4 && item.count <= 0x10000 && 9 <= width && code < Pow2(width)
    requires Stream(r) == ItemBits(width, code, item) + tail && |r.pending| < 8
    ensures GetCode(r, width) == Some((3, r0)) && GetCode(r0, 2) == Some((item.n - 1, r1))
    ensures GetCode(r1, 2) == Some((CountClass(item.count), r2))
    ensures GetCode(r2, 4 * Pow2(CountClass(item.count))) == Some((item.count, r3))
    ensures GetCode(r3, width) == Some((code, r4)) && Stream(r4) == tail && |r4.pending| < 8
  {
    hide Stream, GetCode, Pow2, ToBits;
    var sel := CountClass(item.count);
    PowersOfTwo(width);
    var e := ToBits(code, width) + tail;
    var d := ToBits(item.count, 4 * Pow2(sel)) + e;
    var c := ToBits(sel, 2) + d;
    var b := ToBits(item.n - 1, 2) + c;
    Regroup5(ToBits(3, width), ToBits(item.n - 1, 2), ToBits(sel, 2), ToBits(item.count, 4 * Pow2(sel)), ToBits(code, width), tail);
    r0 := ReadCode(r, width, 3, b);
    r1 := ReadCode(r0, 2, item.n - 1, c);
    r2 := ReadCode(r1, 2, sel, d);
    r3 := ReadCode(r2, 4 * Pow2(sel), item.count, e);
    r4 := ReadCode(r3, width, code, tail);
  }

  lemma AgainStep(s: State, item: Item, tail: seq<bool>) returns (t: State)
    requires Ready(s) && item.Again? && Usable(s.dict, s.cur, s.out, item)
    requires var code := CodeOf(s.dict, item.w);
             code < Pow2(s.width) && Stream(s.r) == ItemBits(s.width, code, item) + tail
    ensures Ready(t) && t == s.(r := t.r, cur := item.w, out := Append(s.out, item))
    ensures Stream(t.r) == tail && Run(s) == Run(t)
  {
    hide Run, Stream, GetCode, Repeat, ItemBits, Pow2, CountClass, DictOk;
    var r0, r1, r2, r3, r4 := AgainReads(s.r, s.width, CodeOf(s.dict, item.w), item, tail);
    CodeMeansPhrase(s.dict, item.w);
    t := s.(r := r4, cur := item.w, out := Append(s.out, item));
    assert item.n * item.count == item.count * item.n;
    RunStep(s);
    assert Decode(s) == RunLength(s.(r := r0));
    assert Decode(s) == Go(t);
  }

  lemma ItemCodeFits(s: State, item: Item)
    requires Ready(s) && Usable(s.dict, s.cur, s.out, item)
    ensures DictOk(DictFor(s.dict, s.cur, item)) && CodeOf(DictFor(s.dict, s.cur, item), item.w) < Pow2(16)
  {
    if item.Word? { ExpandOk(s.dict, s.cur + [item.w[0]]); }
    CodeMeansPhrase(DictFor(s.dict, s.cur, item), item.w);
  }

  lemma ItemDecode(s: State, item: Item, tail: seq<bool>) returns (t: State, code: nat, width: nat)
    requires Ready(s) && Usable(s.dict, s.cur, s.out, item)
    requires CodeOf(DictFor(s.dict, s.cur, item), item.w) < Pow2(16)
    requires var code := CodeOf(DictFor(s.dict, s.cur, item), item.w);
             var width := WidthFor(s.width, code);
             Stream(s.r) == WidenBits(s.width, width) + (ItemBits(width, code, item) + tail)
    ensures code == CodeOf(DictFor(s.dict, s.cur, item), item.w) && width == WidthFor(s.width, code)
    ensures Ready(t) && t == State(t.r, width, DictFor(s.dict, s.cur, item), item.w, Append(s.out, item))
    ensures Stream(t.r) == tail && Run(s) == Run(t)
  {
    hide Run, Stream, CodeOf, WidthFor, WidenBits, DictOk, Pow2, ToBits;
    var dict := DictFor(s.dict, s.cur, item);
    ItemCodeFits(s, item);
    code := CodeOf(dict, item.w);
    width := WidthFor(s.width, code);
    var u := WidenStep(s, width, ItemBits(width, code, item) + tail);
    if item.Word? {
      t := WordStep(u, item.w, tail);
    } else {
      t := AgainStep(u, item, tail);
    }
  }

  /** All items of a block: the decoder arrives, with the right output, at the code behind them. */
  lemma {:induction false} ItemsDecode(s: State, items: seq<Item>, final: nat, tail: seq<bool>) returns (t: State)
    requires Ready(s) && Legal(s.dict, s.cur, s.out, items)
    requires Stream(s.r) == ItemsBits(s.width, s.dict, s.cur, items, final) + tail
    ensures Ready(t) && t.out == Text(s.out, items) && Stream(t.r) == ToBits(final, t.width) + tail
    ensures Run(s) == Run(t)
    decreases |items|
  {
    hide Run, Stream, CodeOf, WidthFor, WidenBits, ItemBits, DictOk, Append, Pow2, ToBits, DictFor, Known;
    if items == [] {
      t := s;
    } else {
      var item := items[0];
      ItemCodeFits(s, item);
      var code := CodeOf(DictFor(s.dict, s.cur, item), item.w);
      var width := WidthFor(s.width, code);
      var x, y := ItemBits(width, code, item), ItemsBits(width, DictFor(s.dict, s.cur, item), item.w, items[1..], final);
      assert (WidenBits(s.width, width) + (x + y)) + tail == WidenBits(s.width, width) + (x + (y + tail));
      var v, _, _ := ItemDecode(s, item, y + tail);
      t := ItemsDecode(v, items[1..], final, tail);
    }
  }

  /** Two ways of cutting the same bits into less than a byte and whole bytes are the same. */
  lemma Aligned(p: seq<bool>, s: seq<byte>, q: seq<bool>, t: seq<byte>)
    requires |p| < 8 && |q| < 8 && p + BytesBits(s) == q + BytesBits(t)
    ensures p == q && s == t
  {
    hide BytesBits;
    assert |p| + 8 * |s| == |q| + 8 * |t|;
    assert p == (p + BytesBits(s))[..|p|] && q == (q + BytesBits(t))[..|q|];
    assert BytesBits(s) == (p + BytesBits(s))[|p|..] && BytesBits(t) == (q + BytesBits(t))[|q|..];
    BytesBitsInjective(s, t);
  }

  lemma BlockStream(b: Block, final: nat, next: seq<byte>) returns (pad: seq<bool>)
    ensures |pad| < 8
    ensures BytesBits(BlockBytes(b, final) + next)
            == ToBits(b.first + 4, 9) + (ItemsBits(9, [], [b.first], b.items, final) + (pad + BytesBits(next)))
  {
    hide ItemsBits, BytesBits, ToBits, Pack;
    var all := ToBits(b.first + 4, 9) + ItemsBits(9, [], [b.first], b.items, final);
    pad := Padded(all)[|all|..];
    BytesBitsConcat(BlockBytes(b, final), next);
    PackedBits(Padded(all));
    assert Padded(all) == all + pad;
  }

  lemma BlockStarts(s: State, r: Reader, first: byte, tail: seq<bool>) returns (u: State)
    requires r == Reader([], s.r.rest) && |s.out| < OUTPUT_MAX && Stream(r) == ToBits(first + 4, 9) + tail
    ensures u == State(u.r, 9, [], [first], s.out + [first]) && StartBlock(s) == Go(u) && Ready(u) && Stream(u.r) == tail
  {
    hide GetCode, ToBits, Pow2, Stream;
    PowersOfTwo(9);
    var r' := ReadCode(r, 9, first + 4, tail);
    u := State(r', 9, [], [first], s.out + [first]);
  }

  /** A block is read from its first byte up to the code that ends it, `pad` being the filling
      behind that code. */
  lemma BlockDecode(s: State, b: Block, final: nat, next: seq<byte>) returns (t: State, pad: seq<bool>)
    requires s.r.rest == BlockBytes(b, final) + next && |s.out| < OUTPUT_MAX
    requires Legal([], [b.first], s.out + [b.first], b.items)
    ensures Ready(t) && t.out == Text(s.out + [b.first], b.items)
    ensures |pad| < 8 && Stream(t.r) == ToBits(final, t.width) + (pad + BytesBits(next))
    ensures Finish(StartBlock(s)) == Run(t)
  {
    hide Run, ItemsBits, BlockBytes, Legal, Text, GetCode, ToBits, Pow2, BytesBits;
    pad := BlockStream(b, final, next);
    var r := Reader([], s.r.rest);
    var tail := ItemsBits(9, [], [b.first], b.items, final) + (pad + BytesBits(next));
    assert Stream(r) == BytesBits(s.r.rest);
    var u := BlockStarts(s, r, b.first, tail);
    t := ItemsDecode(u, b.items, final, pad + BytesBits(next));
  }

  lemma {:induction false} BlocksDecode(s: State, blocks: seq<Block>)
    requires blocks != [] && s.r.rest == BlocksBytes(blocks) && LegalBlocks(s.out, blocks)
    ensures Finish(StartBlock(s)) == Done(Texts(s.out, blocks))
    decreases |blocks|
  {
    var b := blocks[0];
    var final: nat := if |blocks| == 1 then 0 else 1;
    var next := if |blocks| == 1 then [] else BlocksBytes(blocks[1..]);
    assert BlockBytes(b, 0) + [] == BlockBytes(b, 0);
    var t, pad := BlockDecode(s, b, final, next);
    PowersOfTwo(t.width);
    var r := ReadCode(t.r, t.width, final, pad + BytesBits(next));
    if final == 0 {
      assert Decode(t) == Stop(Done(t.out));
      assert Texts(s.out, blocks) == Texts(t.out, blocks[1..]) == t.out;
    } else {
      Aligned(r.pending, r.rest, pad, next);
      var u := t.(r := r);
      assert Decode(t) == StartBlock(u);
      BlocksDecode(u, blocks[1..]);
    }
  }

  /** Unpacking inverts the encoder, whatever phrases it was given. */
  lemma UnpackInvertsEncode(blocks: seq<Block>)
    requires blocks != [] && LegalBlocks([], blocks)
    ensures Unpacked(Encoded(blocks)) == Done(Texts([], blocks))
  {
    assert Encoded(blocks)[..16] == SIGNATURE && Encoded(blocks)[16..] == BlocksBytes(blocks);
    BlocksDecode(State(Reader([], BlocksBytes(blocks)), 9, [], [], []), blocks);
  }

  lemma OneBlockText(b: Block)
    requires Legal([], [b.first], [] + [b.first], b.items)
    ensures Text([] + [b.first], b.items) == Texts([], [b]) && LegalBlocks([], [b])
  {
    hide Text, Legal;
    assert [b][1..] == [];
  }
}
